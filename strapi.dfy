/** The content client of src/lib/strapi.ts: a validating load of the
    configuration, the collection and single-type fetches, and media URL
    resolution. The environment is passed in as an `Env`, the network as a
    `send` function from request to transport outcome. */
module Strapi {
  import opened Wrappers
  import opened Http

  /** The two environment variables the module reads at load time:
      PUBLIC_STRAPI_URL and STRAPI_API_TOKEN (`None` when undefined). */
  datatype Env = Env(publicUrl: Option<string>, apiToken: Option<string>)

  /** The module constants STRAPI_URL and STRAPI_TOKEN. */
  datatype Config = Config(baseUrl: string, token: Option<string>)

  /** A configuration the validating load let through: any call into the
      module happens after the load, so its base URL is never empty. */
  type LoadedConfig = c: Config | c.baseUrl != "" witness Config("http://localhost", None)

  const MissingUrlMessage: string :=
    "\U{274C} STRAPI_URL validation failed: PUBLIC_STRAPI_URL environment variable is required.\n" +
    "Please set it in your .env file or build environment.\n" +
    "Example: PUBLIC_STRAPI_URL=https://your-strapi-instance.com"

  /** Loading the module: it throws when PUBLIC_STRAPI_URL is undefined,
      null or empty, and otherwise fixes the two constants. */
  function Load(env: Env): (r: Result<LoadedConfig, string>)
    ensures r.Failure? <==> !Truthy(env.publicUrl)
    ensures r.Failure? ==> r.error == MissingUrlMessage
    ensures r.Success? ==> r.value.baseUrl == env.publicUrl.value && r.value.token == env.apiToken
  {
    if !Truthy(env.publicUrl) then Failure(MissingUrlMessage)
    else Success(Config(env.publicUrl.value, env.apiToken))
  }

  // ---------------------------------------------------------------- requests

  /** Fixed relations expanded by a collection fetch: the image's url,
      alternative text and formats, and the cuisine's name. */
  const CollectionPopulate: string :=
    "?populate[image][fields][0]=url&populate[image][fields][1]=alternativeText" +
    "&populate[image][fields][2]=formats&populate[cuisine][fields][0]=name"

  /** Fixed relation expanded by a single-type fetch: the hero section with its image. */
  const SinglePopulate: string := "?populate[heroSection][populate]=heroImage"

  /** The path every endpoint lives under. */
  const ApiPath: string := "/api/"

  /** URL of a collection fetch. */
  function CollectionUrl(base: string, endpoint: string): (u: string)
    ensures StartsWith(u, base + ApiPath + endpoint)
    ensures EndsWith(u, CollectionPopulate)
    ensures |u| == |base| + |ApiPath| + |endpoint| + |CollectionPopulate|
  {
    base + ApiPath + endpoint + CollectionPopulate
  }

  /** URL of a single-type fetch. */
  function SingleUrl(base: string, endpoint: string): (u: string)
    ensures StartsWith(u, base + ApiPath + endpoint)
    ensures EndsWith(u, SinglePopulate)
    ensures |u| == |base| + |ApiPath| + |endpoint| + |SinglePopulate|
  {
    base + ApiPath + endpoint + SinglePopulate
  }

  /** The part of a request URL between the base's "/api/" and the fixed query. */
  function EndpointOf(base: string, u: string, query: string): (e: string)
    requires |base| + |ApiPath| + |query| <= |u|
  {
    u[|base| + |ApiPath|..|u| - |query|]
  }

  /** The endpoint can be read back from a collection URL, so two different
      endpoints are never sent to the same URL. */
  lemma CollectionUrlNamesEndpoint(base: string, endpoint: string)
    ensures var u := CollectionUrl(base, endpoint);
      |base| + |ApiPath| + |CollectionPopulate| <= |u| &&
      EndpointOf(base, u, CollectionPopulate) == endpoint
  {
  }

  /** The same for the single-type URL. */
  lemma SingleUrlNamesEndpoint(base: string, endpoint: string)
    ensures var u := SingleUrl(base, endpoint);
      |base| + |ApiPath| + |SinglePopulate| <= |u| &&
      EndpointOf(base, u, SinglePopulate) == endpoint
  {
  }

  /** Over one base URL, different endpoints give different collection URLs. */
  lemma CollectionUrlInjective(base: string, e1: string, e2: string)
    ensures CollectionUrl(base, e1) == CollectionUrl(base, e2) ==> e1 == e2
  {
    CollectionUrlNamesEndpoint(base, e1);
    CollectionUrlNamesEndpoint(base, e2);
  }

  /** A collection fetch and a single-type fetch never request the same URL:
      the two fixed queries end differently ("...=name" and "...=heroImage"). */
  lemma CollectionAndSingleUrlsDiffer(base: string, e1: string, e2: string)
    ensures CollectionUrl(base, e1) != SingleUrl(base, e2)
  {
    var c, s := CollectionUrl(base, e1), SingleUrl(base, e2);
    assert c[|c| - 2] == 'm' by {
      assert c[|c| - |CollectionPopulate|..] == CollectionPopulate;
    }
    assert s[|s| - 2] == 'g' by {
      assert s[|s| - |SinglePopulate|..] == SinglePopulate;
    }
  }

  /** The headers of every fetch: `Content-Type: application/json` always,
      `Authorization: Bearer <token>` exactly when the token is truthy, and
      nothing else. */
  function RequestHeaders(token: Option<string>): (h: Headers)
    ensures "Content-Type" in h && h["Content-Type"] == "application/json"
    ensures "Authorization" in h <==> Truthy(token)
    ensures Truthy(token) ==> h["Authorization"] == "Bearer " + token.value
    ensures forall name :: name in h ==> name == "Content-Type" || name == "Authorization"
  {
    var base := map["Content-Type" := "application/json"];
    if Truthy(token) then base["Authorization" := "Bearer " + token.value] else base
  }

  // ------------------------------------------------------------------ errors

  /** The errors a fetch throws. `Failed` is the fallback for other non-ok
      statuses and carries its whole message; `Rethrown` is an error thrown by
      `fetch` or `response.json()`, passed on unchanged by the catch clause. */
  datatype FetchError =
    | NotFound(endpoint: string)
    | Unauthorized
    | Forbidden
    | ServerError
    | Failed(message: string)
    | Rethrown(cause: string)
  {
    /** The message of the thrown `Error`. */
    function Message(): string {
      match this
      case NotFound(endpoint) => NotFoundPrefix + endpoint
      case Unauthorized => "Authentication required. Please check your API token."
      case Forbidden => "Access forbidden. Your API token may not have the required permissions."
      case ServerError => "Strapi server error. Please try again later."
      case Failed(message) => message
      case Rethrown(cause) => cause
    }
  }

  const NotFoundPrefix: string := "Endpoint not found: "

  /** Which of the two fetches is running; they differ in the fallback message. */
  datatype Variant = Collection | Single

  /** The fallback message for a non-ok status none of the specific checks caught. */
  function FallbackMessage(variant: Variant, endpoint: string, statusText: string): (m: string)
    ensures EndsWith(m, statusText)
    ensures variant.Single? ==> StartsWith(m, "Failed to fetch " + endpoint + ": ")
    ensures variant.Collection? ==> StartsWith(m, "Failed to fetch from Strapi: ")
    ensures variant.Single? ==> |m| == |"Failed to fetch " + endpoint + ": "| + |statusText|
    ensures variant.Collection? ==> |m| == |"Failed to fetch from Strapi: "| + |statusText|
  {
    match variant
    case Collection => "Failed to fetch from Strapi: " + statusText
    case Single => "Failed to fetch " + endpoint + ": " + statusText
  }

  /** The error for a response that is not ok, checked in the order 404, 401,
      403, >= 500, fallback. Each kind is characterised by the status alone,
      so exactly one fires. */
  function StatusError(variant: Variant, endpoint: string, status: int, statusText: string): (e: FetchError)
    ensures e.NotFound? <==> status == 404
    ensures e.Unauthorized? <==> status == 401
    ensures e.Forbidden? <==> status == 403
    ensures e.ServerError? <==> status >= 500
    ensures e.Failed? <==> status < 500 && status !in {401, 403, 404}
    ensures !e.Rethrown?
    ensures e.NotFound? ==> e.endpoint == endpoint
    ensures e.Failed? ==> e.message == FallbackMessage(variant, endpoint, statusText)
  {
    if status == 404 then NotFound(endpoint)
    else if status == 401 then Unauthorized
    else if status == 403 then Forbidden
    else if status >= 500 then ServerError
    else Failed(FallbackMessage(variant, endpoint, statusText))
  }

  /** The message of a 404 names the endpoint, which can be read back from it. */
  lemma NotFoundNamesEndpoint(endpoint: string)
    ensures var m := NotFound(endpoint).Message();
      StartsWith(m, NotFoundPrefix) && EndsWith(m, endpoint) && m[|NotFoundPrefix|..] == endpoint
  {
  }

  /** What a fetch returns or throws, given what `fetch` produced. This is
      the specification that the fetch methods (`FetchStrapi`,
      `FetchStrapiSingle` and `StrapiBackup.FetchStrapi`) are proved equal to;
      they repeat its checks step by step, as the source does in each function. */
  function Outcome<B>(variant: Variant, endpoint: string, t: Transport<B>): (r: Result<B, FetchError>)
  {
    match t
    case Thrown(cause) => Failure(Rethrown(cause))
    case Delivered(response) =>
      if !response.Ok() then
        Failure(StatusError(variant, endpoint, response.status, response.statusText))
      else
        match response.json
        case Success(body) => Success(body)
        case Failure(cause) => Failure(Rethrown(cause))
  }

  /** A fetch succeeds exactly when a response arrived, it is ok and its body
      parsed; it then returns that body unchanged. A non-ok response always
      gives the status's error; everything else is passed through. */
  lemma OutcomeCases<B>(variant: Variant, endpoint: string, t: Transport<B>)
    ensures Outcome(variant, endpoint, t).Success? <==>
      t.Delivered? && t.response.Ok() && t.response.json.Success?
    ensures Outcome(variant, endpoint, t).Success? ==>
      Outcome(variant, endpoint, t).value == t.response.json.value
    ensures t.Delivered? && !t.response.Ok() ==>
      Outcome(variant, endpoint, t) ==
        Failure(StatusError(variant, endpoint, t.response.status, t.response.statusText))
    ensures t.Thrown? ==> Outcome(variant, endpoint, t) == Failure(Rethrown(t.cause))
    ensures t.Delivered? && t.response.Ok() && t.response.json.Failure? ==>
      Outcome(variant, endpoint, t) == Failure(Rethrown(t.response.json.error))
  {
  }

  /** The status table: 404, 401, 403, 500, 503 and 422 each map to their
      one kind, and a 404 for "menu-items" names "menu-items". */
  lemma StatusTable(variant: Variant, endpoint: string, statusText: string)
    ensures StatusError(variant, endpoint, 404, statusText) == NotFound(endpoint)
    ensures StatusError(variant, endpoint, 401, statusText) == Unauthorized
    ensures StatusError(variant, endpoint, 403, statusText) == Forbidden
    ensures StatusError(variant, endpoint, 500, statusText) == ServerError
    ensures StatusError(variant, endpoint, 503, statusText) == ServerError
    ensures StatusError(variant, endpoint, 422, statusText).Failed?
    ensures NotFound("menu-items").Message() == "Endpoint not found: menu-items"
  {
  }

  // ----------------------------------------------------------------- fetches

  /** `fetchStrapi(endpoint)`: builds the collection URL and the headers,
      sends the request once and turns the outcome into a body or an error. */
  method FetchStrapi<B>(cfg: LoadedConfig, endpoint: string, send: Request -> Transport<B>)
    returns (request: Request, result: Result<B, FetchError>)
    ensures request.url == CollectionUrl(cfg.baseUrl, endpoint)
    ensures request.headers == RequestHeaders(cfg.token)
    ensures result == Outcome(Collection, endpoint, send(request))
  {
    var url := cfg.baseUrl + ApiPath + endpoint + CollectionPopulate;
    var headers: Headers := map["Content-Type" := "application/json"];
    if Truthy(cfg.token) {
      headers := headers["Authorization" := "Bearer " + cfg.token.value];
    }
    request := Request(url, headers);
    var t := send(request);
    if t.Thrown? {
      return request, Failure(Rethrown(t.cause));
    }
    var response := t.response;
    if !response.Ok() {
      if response.status == 404 {
        return request, Failure(NotFound(endpoint));
      }
      if response.status == 401 {
        return request, Failure(Unauthorized);
      }
      if response.status == 403 {
        return request, Failure(Forbidden);
      }
      if response.status >= 500 {
        return request, Failure(ServerError);
      }
      return request, Failure(Failed("Failed to fetch from Strapi: " + response.statusText));
    }
    if response.json.Failure? {
      return request, Failure(Rethrown(response.json.error));
    }
    result := Success(response.json.value);
  }

  /** `fetchStrapiSingle(endpoint)`: the same steps with the single-type URL
      and a fallback message that names the endpoint. */
  method FetchStrapiSingle<B>(cfg: LoadedConfig, endpoint: string, send: Request -> Transport<B>)
    returns (request: Request, result: Result<B, FetchError>)
    ensures request.url == SingleUrl(cfg.baseUrl, endpoint)
    ensures request.headers == RequestHeaders(cfg.token)
    ensures result == Outcome(Single, endpoint, send(request))
  {
    var url := cfg.baseUrl + ApiPath + endpoint + SinglePopulate;
    var headers: Headers := map["Content-Type" := "application/json"];
    if Truthy(cfg.token) {
      headers := headers["Authorization" := "Bearer " + cfg.token.value];
    }
    request := Request(url, headers);
    var t := send(request);
    if t.Thrown? {
      return request, Failure(Rethrown(t.cause));
    }
    var response := t.response;
    if !response.Ok() {
      if response.status == 404 {
        return request, Failure(NotFound(endpoint));
      }
      if response.status == 401 {
        return request, Failure(Unauthorized);
      }
      if response.status == 403 {
        return request, Failure(Forbidden);
      }
      if response.status >= 500 {
        return request, Failure(ServerError);
      }
      return request, Failure(Failed("Failed to fetch " + endpoint + ": " + response.statusText));
    }
    if response.json.Failure? {
      return request, Failure(Rethrown(response.json.error));
    }
    result := Success(response.json.value);
  }

  /** Loading the module and then running a collection fetch. A falsy
      PUBLIC_STRAPI_URL stops the load with its message before any request
      is sent; otherwise the request and the result are those of
      `FetchStrapi` over the loaded configuration, each error reported by
      its message. */
  method LoadAndFetch<B>(env: Env, endpoint: string, send: Request -> Transport<B>)
    returns (sent: Option<Request>, result: Result<B, string>)
    ensures !Truthy(env.publicUrl) ==> sent.None? && result == Failure(MissingUrlMessage)
    ensures Truthy(env.publicUrl) ==>
      sent.Some? &&
      sent.value.url == CollectionUrl(env.publicUrl.value, endpoint) &&
      sent.value.headers == RequestHeaders(env.apiToken)
    ensures Truthy(env.publicUrl) ==>
      match Outcome(Collection, endpoint, send(sent.value))
      case Success(body) => result == Success(body)
      case Failure(e) => result == Failure(e.Message())
  {
    var loaded := Load(env);
    if loaded.Failure? {
      return None, Failure(loaded.error);
    }
    var request, fetched := FetchStrapi(loaded.value, endpoint, send);
    sent := Some(request);
    match fetched {
      case Success(body) => result := Success(body);
      case Failure(e) => result := Failure(e.Message());
    }
  }

  // ------------------------------------------------------------------- media

  /** `getStrapiMedia(url)`: null for a falsy input, the input itself when it
      starts with "http", and otherwise the input behind the base URL. */
  function GetStrapiMedia(cfg: LoadedConfig, url: Option<string>): (r: Option<string>)
    ensures r.None? <==> !Truthy(url)
    ensures r.Some? ==> EndsWith(r.value, url.value)
    ensures r.Some? && StartsWith(url.value, "http") ==> r.value == url.value
    ensures r.Some? && !StartsWith(url.value, "http") ==>
      StartsWith(r.value, cfg.baseUrl) && |r.value| == |cfg.baseUrl| + |url.value|
  {
    if !Truthy(url) then None
    else if StartsWith(url.value, "http") then url
    else Some(cfg.baseUrl + url.value)
  }

  /** When the base URL starts with "http", every resolved URL does too. */
  lemma MediaIsAbsolute(cfg: LoadedConfig, url: Option<string>)
    requires StartsWith(cfg.baseUrl, "http")
    ensures var r := GetStrapiMedia(cfg, url); r.Some? ==> StartsWith(r.value, "http")
  {
  }

  /** When the base URL starts with "http", resolving twice is resolving once. */
  lemma MediaIdempotent(cfg: LoadedConfig, url: Option<string>)
    requires StartsWith(cfg.baseUrl, "http")
    ensures GetStrapiMedia(cfg, GetStrapiMedia(cfg, url)) == GetStrapiMedia(cfg, url)
  {
  }

  /** Without that premise idempotence fails: with base "cdn.example.com",
      "/a.png" resolves to "cdn.example.com/a.png", and that to
      "cdn.example.comcdn.example.com/a.png". */
  lemma MediaNotIdempotentForSchemelessBase()
    ensures var cfg: LoadedConfig := Config("cdn.example.com", None);
      GetStrapiMedia(cfg, GetStrapiMedia(cfg, Some("/a.png"))) != GetStrapiMedia(cfg, Some("/a.png"))
  {
    var cfg: LoadedConfig := Config("cdn.example.com", None);
    assert !StartsWith("/a.png", "http") by { assert "/a.png"[0] != "http"[0]; }
    assert "cdn.example.com" + "/a.png" == "cdn.example.com/a.png";
    assert GetStrapiMedia(cfg, Some("/a.png")) == Some("cdn.example.com/a.png");
    assert !StartsWith("cdn.example.com/a.png", "http") by { assert "cdn.example.com/a.png"[0] != "http"[0]; }
  }

  /** A relative path goes behind the base URL; an absolute URL is kept. */
  lemma MediaScenarios()
    ensures GetStrapiMedia(Config("https://cdn.example.com", None), Some("/uploads/photo.jpg"))
      == Some("https://cdn.example.com/uploads/photo.jpg")
    ensures GetStrapiMedia(Config("https://cdn.example.com", None), Some("https://other.cdn/img.png"))
      == Some("https://other.cdn/img.png")
    ensures GetStrapiMedia(Config("https://cdn.example.com", None), Some("httpfoo")) == Some("httpfoo")
    ensures GetStrapiMedia(Config("https://cdn.example.com", None), Some("")) == None
  {
    assert !StartsWith("/uploads/photo.jpg", "http") by { assert "/uploads/photo.jpg"[0] != "http"[0]; }
    assert "https://cdn.example.com" + "/uploads/photo.jpg" == "https://cdn.example.com/uploads/photo.jpg";
    assert StartsWith("https://other.cdn/img.png", "http") by {
      assert "https://other.cdn/img.png"[..4] == "http";
    }
    assert StartsWith("httpfoo", "http") by { assert "httpfoo"[..4] == "http"; }
  }
}
