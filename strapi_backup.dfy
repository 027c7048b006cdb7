/** The older content client of src/lib/strapi-backup.ts. It reads the same
    environment but falls back to a fixed host instead of failing, and has
    only the collection fetch and media resolution. The request, header and
    error logic is the same code as in src/lib/strapi.ts, so its fetch is
    proved against the specification functions of module Strapi. */
module StrapiBackup {
  import opened Wrappers
  import opened Http
  import Strapi

  /** The host used when PUBLIC_STRAPI_URL is falsy. */
  const FallbackUrl: string := "http://bayanbites.skyguyver.com"

  /** `PUBLIC_STRAPI_URL || FallbackUrl` and STRAPI_API_TOKEN: loading never fails. */
  function Configure(env: Strapi.Env): (cfg: Strapi.LoadedConfig)
    ensures Truthy(env.publicUrl) ==> cfg.baseUrl == env.publicUrl.value
    ensures !Truthy(env.publicUrl) ==> cfg.baseUrl == FallbackUrl
    ensures cfg.token == env.apiToken
  {
    Strapi.Config(if Truthy(env.publicUrl) then env.publicUrl.value else FallbackUrl, env.apiToken)
  }

  /** Where the validating load of src/lib/strapi.ts succeeds, both files
      arrive at the same configuration; where it fails, this one uses the
      fallback host, whose scheme is "http". */
  lemma ConfigureExtendsLoad(env: Strapi.Env)
    ensures Strapi.Load(env).Success? ==> Strapi.Load(env).value == Configure(env)
    ensures Strapi.Load(env).Failure? ==>
      Configure(env).baseUrl == FallbackUrl && StartsWith(Configure(env).baseUrl, "http")
  {
  }

  /** `fetchStrapi(endpoint)`: builds the collection URL and the headers,
      sends the request once and turns the outcome into a body or an error. */
  method FetchStrapi<B>(cfg: Strapi.LoadedConfig, endpoint: string, send: Request -> Transport<B>)
    returns (request: Request, result: Result<B, Strapi.FetchError>)
    ensures request.url == Strapi.CollectionUrl(cfg.baseUrl, endpoint)
    ensures request.headers == Strapi.RequestHeaders(cfg.token)
    ensures result == Strapi.Outcome(Strapi.Collection, endpoint, send(request))
  {
    var url := cfg.baseUrl + "/api/" + endpoint + Strapi.CollectionPopulate;
    var headers: Headers := map["Content-Type" := "application/json"];
    if Truthy(cfg.token) {
      headers := headers["Authorization" := "Bearer " + cfg.token.value];
    }
    request := Request(url, headers);
    var t := send(request);
    if t.Thrown? {
      return request, Failure(Strapi.Rethrown(t.cause));
    }
    var response := t.response;
    if !response.Ok() {
      if response.status == 404 {
        return request, Failure(Strapi.NotFound(endpoint));
      }
      if response.status == 401 {
        return request, Failure(Strapi.Unauthorized);
      }
      if response.status == 403 {
        return request, Failure(Strapi.Forbidden);
      }
      if response.status >= 500 {
        return request, Failure(Strapi.ServerError);
      }
      return request, Failure(Strapi.Failed("Failed to fetch from Strapi: " + response.statusText));
    }
    if response.json.Failure? {
      return request, Failure(Strapi.Rethrown(response.json.error));
    }
    result := Success(response.json.value);
  }

  /** `getStrapiMedia(url)`: null for a falsy input, the input itself when it
      starts with "http", and otherwise the input behind the base URL. */
  function GetStrapiMedia(cfg: Strapi.LoadedConfig, url: Option<string>): (r: Option<string>)
    ensures r.None? <==> !Truthy(url)
    ensures r.Some? ==> EndsWith(r.value, url.value)
    ensures r.Some? && StartsWith(url.value, "http") ==> r.value == url.value
    ensures r.Some? && !StartsWith(url.value, "http") ==>
      StartsWith(r.value, cfg.baseUrl) && |r.value| == |cfg.baseUrl| + |url.value|
  {
    if !Truthy(url) then None
    else if StartsWith(url.value, "http") then url
    else Some(cfg.baseUrl + url.value)
  }

  /** Both files resolve media URLs alike over the same base URL. */
  lemma MediaAgreesWithStrapi(cfg: Strapi.LoadedConfig, url: Option<string>)
    ensures GetStrapiMedia(cfg, url) == Strapi.GetStrapiMedia(cfg, url)
  {
  }

  /** With no environment URL the base is the fallback host, so resolving a
      media URL twice gives the same result as resolving it once. */
  lemma FallbackMediaIdempotent(env: Strapi.Env, url: Option<string>)
    requires !Truthy(env.publicUrl)
    ensures var cfg := Configure(env);
      GetStrapiMedia(cfg, GetStrapiMedia(cfg, url)) == GetStrapiMedia(cfg, url)
  {
  }
}
