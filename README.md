# Strapi content client, modelled in Dafny

This project models the data-access layer of a static restaurant website
built with Astro: the client that fetches menu items and the homepage from a
Strapi content backend. It exists in two versions, `src/lib/strapi.ts` and its
older near-copy `src/lib/strapi-backup.ts`, modelled as the modules `Strapi`
and `StrapiBackup`.

What is modelled:

- **Configuration.** The environment values PUBLIC_STRAPI_URL and
  STRAPI_API_TOKEN are an explicit `Env`. In `strapi.ts`, loading the module
  throws when the URL is falsy (`Strapi.Load`). A loaded configuration has the
  type `LoadedConfig`, whose base URL is never empty, and every fetch is given
  one. `Strapi.LoadAndFetch` runs the load and then a fetch: when the URL is
  falsy it fails with the load's message and sends no request. In `strapi-backup.ts` a falsy URL
  falls back to `http://bayanbites.skyguyver.com` (`StrapiBackup.Configure`).
- **Requests.** The collection URL and the single-type URL are the base, then
  `/api/`, then the endpoint, then a fixed populate query. The headers always
  hold `Content-Type: application/json`. They hold `Authorization: Bearer
  <token>` exactly when the token is truthy.
- **Fetches.** The fetches are methods that build the header dictionary and
  then update it in place. They send the request once through a `send`
  function, which stands for `fetch`. Then they run the status checks in the
  source's order and return early. The result is a `Result` of the opaque body
  or a `FetchError`. Each method is proved equal to the pure specification
  function `Strapi.Outcome`, and lemmas prove what that function promises.
- **Media URLs.** `getStrapiMedia` is a pure function over `Option<string>`.
  `None` stands for `null` and `undefined`.

## Behaviour worth noting

- An input counts as "absolute" when it starts with the literal text `http`,
  so `httpfoo` passes through unchanged.
- Resolving a media URL twice is the same as resolving it once only when the
  base URL starts with `http`. The load checks only that the URL is non-empty,
  so a schemeless base breaks this (`Strapi.MediaNotIdempotentForSchemelessBase`).
  The fallback host of `strapi-backup.ts` starts with `http`, so idempotence
  always holds there when the fallback is in use.

## Model

| member | source | states |
|---|---|---|
| `Strapi.Load` | src/lib/strapi.ts:3-12 | loading fails exactly when PUBLIC_STRAPI_URL is undefined, null or empty, with the fixed validation message; otherwise the base URL is the environment value and the token is STRAPI_API_TOKEN |
| `Strapi.CollectionUrl` | src/lib/strapi.ts:108 | the collection URL starts with base + "/api/" + endpoint and ends with the fixed image/cuisine populate query, and has no other characters |
| `Strapi.SingleUrl` | src/lib/strapi.ts:152 | the single-type URL starts with base + "/api/" + endpoint and ends with the fixed heroSection/heroImage populate query, and has no other characters |
| `Strapi.CollectionUrlNamesEndpoint` | src/lib/strapi.ts:108 | the endpoint can be read back from the collection URL between "/api/" and the query |
| `Strapi.SingleUrlNamesEndpoint` | src/lib/strapi.ts:152 | the endpoint can be read back from the single-type URL between "/api/" and the query |
| `Strapi.CollectionUrlInjective` | src/lib/strapi.ts:108 | over one base URL, different endpoints never give the same collection URL |
| `Strapi.CollectionAndSingleUrlsDiffer` | src/lib/strapi.ts:108-152 | a collection URL never equals a single-type URL, whatever the endpoints |
| `Strapi.RequestHeaders` | src/lib/strapi.ts:111-118 | Content-Type is always application/json; Authorization is present if and only if the token is truthy, and is then "Bearer " + token; no other header is set |
| `Strapi.FallbackMessage` | src/lib/strapi.ts:136-178 | the fallback message is exactly "Failed to fetch from Strapi: " followed by the status text for a collection, and "Failed to fetch <endpoint>: " followed by the status text for a single type |
| `Strapi.StatusError` | src/lib/strapi.ts:122-137 | for a non-ok status: NotFound iff 404 (naming the endpoint), Unauthorized iff 401, Forbidden iff 403, ServerError iff >= 500, the status-text fallback for every other status; exactly one kind fires |
| `Strapi.NotFoundNamesEndpoint` | src/lib/strapi.ts:124-126 | a 404's message is "Endpoint not found: " followed by the endpoint, which can be read back from it |
| `Strapi.StatusTable` | src/lib/strapi.ts:124-136 | 404, 401, 403, 500, 503 and 422 map to NotFound, Unauthorized, Forbidden, ServerError, ServerError and the fallback |
| `Strapi.OutcomeCases` | src/lib/strapi.ts:120-147 | a fetch succeeds iff a response arrives, is ok and its body parses, and then returns that body; a non-ok response gives its status error; transport and parse errors are rethrown unchanged |
| `Strapi.FetchStrapi` | src/lib/strapi.ts:107-148 | sends exactly the collection URL with the token's headers, and its result is the specified outcome of what came back |
| `Strapi.FetchStrapiSingle` | src/lib/strapi.ts:151-189 | sends exactly the single-type URL with the token's headers, and its result is the specified outcome, with the endpoint-naming fallback |
| `Strapi.LoadAndFetch` | src/lib/strapi.ts:3-148 | with a falsy PUBLIC_STRAPI_URL the load fails with its message and no request is sent; otherwise the collection request is built from the environment values and the result is the fetch's outcome, errors given by their messages |
| `Strapi.GetStrapiMedia` | src/lib/strapi.ts:191-201 | null iff the input is falsy; an input starting with "http" is returned unchanged; any other input is returned behind the base URL; the input is always a suffix of the result |
| `Strapi.MediaIsAbsolute` | src/lib/strapi.ts:195-200 | when the base starts with "http", every resolved URL starts with "http" |
| `Strapi.MediaIdempotent` | src/lib/strapi.ts:191-201 | when the base starts with "http", resolving twice gives the same result as resolving once |
| `Strapi.MediaNotIdempotentForSchemelessBase` | src/lib/strapi.ts:200 | with a base that does not start with "http", resolving a relative path twice prepends the base twice |
| `Strapi.MediaScenarios` | src/lib/strapi.ts:191-201 | "/uploads/photo.jpg" goes behind "https://cdn.example.com"; "https://other.cdn/img.png" and "httpfoo" pass through; "" gives null |
| `StrapiBackup.Configure` | src/lib/strapi-backup.ts:2-3 | loading never fails: the base URL is the environment value when it is truthy and "http://bayanbites.skyguyver.com" otherwise; the token is STRAPI_API_TOKEN |
| `StrapiBackup.ConfigureExtendsLoad` | src/lib/strapi-backup.ts:2 | where the validating load succeeds both files get the same configuration; where it fails the backup uses the fallback host, which starts with "http" |
| `StrapiBackup.FetchStrapi` | src/lib/strapi-backup.ts:72-113 | sends exactly the collection URL with the token's headers, and its result is the same specified outcome as the collection fetch of strapi.ts |
| `StrapiBackup.GetStrapiMedia` | src/lib/strapi-backup.ts:115-125 | null iff the input is falsy; an input starting with "http" is returned unchanged; any other input is returned behind the base URL |
| `StrapiBackup.MediaAgreesWithStrapi` | src/lib/strapi-backup.ts:115-125 | both files resolve every media URL alike over the same base |
| `StrapiBackup.FallbackMediaIdempotent` | src/lib/strapi-backup.ts:2-124 | with no environment URL, resolving a media URL twice gives the same result as resolving it once |

## Left out

- The `fetch` call itself and `response.json()` are network I/O. They are a `send` parameter and a parse result inside the response. The parsed body is an opaque type parameter, so the model does not check its shape, and neither does the source.
- The TypeScript interfaces (`MenuItem`, `StrapiResponse`, `HomepageResponse`, ...) describe the body and have no behaviour. The generic `T` of `fetchStrapi` becomes the type parameter `B`.
- `console.error` under `import.meta.env.DEV` is diagnostic output only. The error is rethrown unchanged either way, which `Rethrown` and the status errors capture.
- Reading `import.meta.env` is replaced by the `Env` parameter.
- `async`/`await` is not modelled: each fetch is one sequential step from request to outcome.
- astro.config.mjs is not part of this model. It is build configuration with no logic.
- Thrown errors are modelled by their message (`Rethrown(cause)`, `FetchError.Message`). The error object itself is not: its class (a `TypeError` from `fetch`, a `SyntaxError` from `response.json()`) and its identity, which the catch clause passes on unchanged.
