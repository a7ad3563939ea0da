# Scaleway API client: cache-warming reads and resolve-with-refresh

A Dafny model of the core of the Scaleway command-line client's API layer
(`api.go`). The client lists and fetches servers, images, snapshots and
bootscripts. Every successful read inserts each observed `(identifier, name)`
pair into a local name-resolution cache. Names are resolved cache-first, and
a miss costs exactly one full remote listing followed by one more lookup.
The model also covers the message priority of `ScalewayAPIError.Error`,
the status dispatch of the two POSTs and the join of endpoint and resource
into a request URI.

Layout, one module per concept:

- `wrappers.dfy` (`Wrappers`): `Option`.
- `api_error.dfy` (`ApiErrors`): `ApiError` and its `Error` text, the `%d`
  rendering of the status code and its inverse `ParseInt`.
- `resources.dfy` (`Resources`): the resource kinds, the records reduced to
  identifier and name (the title for a bootscript), the cache entries of a
  listing (`Entries`), and the `limit` truncation of `GetServers`.
- `transport.dfy` (`Transport`): the errors, the requests, the remote's
  replies as parameters, and the URI join (`TrimSlashes`, `Uri`).
- `cache.dfy` (`Cache`): the cache as the client sees it (`ScalewayCache`).
  An index is the history of the pairs inserted into it, after those loaded
  from disk. Lookup is an arbitrary matching function of that history and
  the needle, fixed when the cache is built, so no matching rule is assumed.
  A ghost log records every lookup.
- `api.dfy` (`Api`): the client class `ScalewayAPI`. Its ghost log
  `requests` records every GET and POST it attempts, including one whose
building fails before anything is sent. Each operation receives as
  a parameter the remote's `Reply`: either no response (a transport error),
  or a status with the body as decoded into the expected type and as decoded
  into an error body.

Behaviour of the code worth knowing:

- The `Get*` reads never look at the HTTP status. Any response whose body
  decodes counts as a success and warms the cache. The model ignores
  `status` on reads likewise.
- `PostServer` does not insert the created server into the cache.
- `GetServers` sends no `limit` to the remote. It truncates locally, after
  every listed server has been inserted.
- The errors that the POSTs build from a rejected response never carry
  `Message`, which is not decoded from JSON. Their `Error` text is therefore
  the remote's message or else the status fallback.

## Model

| member | source | states |
|---|---|---|
| ApiErrors.ApiError.Error | api.go:44-55 | Defined exactly when one of Message, ApiMessage, StatusCode is set (the panic is the precondition). The result is never empty. Message wins, then ApiMessage. Otherwise the text is "invalid return code, got " followed by the `%d` rendering of StatusCode, which reads back as StatusCode. |
| ApiErrors.FormatNat | api.go:52 | The `%d` rendering of a non-negative number is a non-empty string of decimal digits with no leading zero. |
| ApiErrors.FormatInt | api.go:52 | The signed `%d` rendering: a leading '-' exactly for negative numbers, followed by the digits of the magnitude. |
| ApiErrors.ParseFormatInt | api.go:52 | The `%d` rendering of any status code, negative ones included, parses back to that code, so the fallback message loses nothing. |
| Transport.TrimSlashes | api.go:304 | The trimmed endpoint is a prefix of the endpoint and does not end in '/'. Everything cut off consists of '/' characters. |
| Transport.Uri | api.go:304 | The request URI ends with "/" followed by the resource. What precedes that slash is the endpoint with all trailing '/' removed, so the join never produces "//". |
| Transport.UriIgnoresTrailingSlashes | api.go:318 | Appending any number of '/' to the endpoint leaves every request URI unchanged, for GETs and POSTs alike. |
| Resources.Entries | api.go:356-358 | A listing contributes one cache entry per record, in listing order, and the i-th entry is that of the i-th record. |
| Resources.Truncate | api.go:359-363 | The returned servers are a prefix of the listing. They are the whole listing when limit <= 0 or limit >= n, and exactly limit of them otherwise. |
| Resources.WarmedBeyondLimit | api.go:356-363 | The entries inserted by a listing are those of the returned servers followed by those of the servers cut off by limit. |
| Api.ServersResource | api.go:337-345 | GetServers requests "servers?", with the "state=running" filter exactly when not all states are asked for. The limit adds nothing to the query. |
| Api.Fetched | api.go:345-355 | A GET succeeds exactly when a response arrived and its body decoded, and then yields the decoded records. A transport failure gives a TransportError and a malformed body a DecodeError, both carrying the original reason. |
| Api.FetchedIgnoresStatus | api.go:345-355 | The outcome of a GET does not depend on the response status: any status with a decodable body is a success. |
| Api.Rejection | api.go:398-406 | The API error built from a rejection keeps the decoded message and type, takes the response status as StatusCode and has no Message. It is printable exactly when the message is non-empty or the status is non-zero. |
| Api.Rejected | api.go:431-441 | A non-success POST response whose error body is malformed gives that DecodeError. Otherwise it gives the ApiFailure built by Rejection. |
| Cache.ScalewayCache.constructor | api.go:285 | A cache starts with the loaded indexes, a fixed matching rule and no lookups made. |
| Cache.ScalewayCache.Insert | api.go:357 | Inserting appends exactly that pair to the index of its kind. No other index and no lookup log changes. |
| Cache.ScalewayCache.LookUp | api.go:447 | A lookup answers the matching rule applied to the current index and needle. It changes no index and logs one query. |
| Api.ActionOutcome | api.go:393-408 | PostServerAction succeeds iff the response status is 202. A transport or body-decode error is returned as is. Otherwise, and only then, the result is the decoded API error, with its message and type kept, StatusCode set to the response status and no Message. |
| Api.CreateOutcome | api.go:419-442 | PostServer returns an identifier iff the status is 201 and the body decodes, and then it is the created server's identifier. Any other status whose error body decodes gives exactly the decoded API error, with its message and type kept, StatusCode set to the response status and no Message. Decode and transport errors are returned as is. |
| Api.RejectionRenders | api.go:406 | An error built from a rejected POST with a non-zero status can always be printed. Its text is the remote's message or names the status. |
| Api.ScalewayAPI.constructor | api.go:284-295 | NewScalewayAPI keeps the endpoint, organization, token and cache it is given and has sent nothing. |
| Api.ScalewayAPI.GetResponse | api.go:303-313 | A GET attempts exactly one request, to the joined URI of the resource. |
| Api.ScalewayAPI.PostResponse | api.go:317-332 | A POST attempts exactly one request with its payload to the joined URI of the resource. |
| Api.ScalewayAPI.GetServers | api.go:336-364 | Sends one GET for "servers?", with "state=running" unless all. A transport or decode failure is returned before any insert. On success every listed server is inserted in order, including those cut off by limit, and the result is the listing truncated to limit. |
| Api.ScalewayAPI.GetServer | api.go:367-381 | Sends one GET for "servers/<id>". On success exactly the fetched server's (Identifier, Name) is inserted. On failure nothing is. |
| Api.ScalewayAPI.GetImages | api.go:485-502 | Sends one GET for "images?". On success one entry per listed image is inserted, in order, and the listing is returned. On failure nothing is inserted. |
| Api.ScalewayAPI.GetImage | api.go:505-519 | Sends one GET for "images/<id>". On success exactly the fetched image's pair is inserted. |
| Api.ScalewayAPI.GetSnapshots | api.go:522-539 | Sends one GET for "snapshots?". On success one entry per listed snapshot is inserted, in order. On failure nothing is. |
| Api.ScalewayAPI.GetSnapshot | api.go:542-556 | Sends one GET for "snapshots/<id>". On success exactly the fetched snapshot's pair is inserted. |
| Api.ScalewayAPI.GetBootscripts | api.go:559-576 | Sends one GET for "bootscripts?". On success one (Identifier, Title) entry per listed bootscript is inserted, in order. |
| Api.ScalewayAPI.GetBootscript | api.go:579-593 | Sends one GET for "bootscripts/<id>". On success exactly the fetched bootscript's (Identifier, Title) is inserted. |
| Api.ScalewayAPI.ResolveServer | api.go:446-456 | A cache hit is returned unchanged with no request sent and one lookup. On a miss exactly one GET "servers?" (all states, no limit) is sent. If it fails, its error is returned with no second lookup. Otherwise all listed servers are inserted and the second lookup's answer is returned, even when empty. |
| Api.ScalewayAPI.ResolveImage | api.go:459-469 | Same protocol for images, with exactly one GET "images?" on a miss. |
| Api.ScalewayAPI.ResolveBootscript | api.go:472-482 | Same protocol for bootscripts, with exactly one GET "bootscripts?" on a miss, warming the cache with titles. |
| Api.ScalewayAPI.PostServerAction | api.go:384-409 | Sends one POST of the action to "servers/<id>/action" and returns what ActionOutcome gives for the reply. The cache is not touched. |
| Api.ScalewayAPI.PostServer | api.go:412-443 | Sends one POST to "servers" of the definition with Organization replaced by the client's organization, and returns what CreateOutcome gives for the reply. The cache is not touched. |
| Api.ResolveServerTwice | api.go:446-456 | Once a resolution found something, resolving the same needle again returns the same answer from the cache and sends nothing. The only request of the pair is the one listing the first resolution made, and only if its first lookup missed. |

## Left out

- HTTP transport: building the request (a request that cannot be built is still logged as attempted, then fails as a transport error), the `X-Auth-Token` and `Content-Type` headers, and `client.Do`. Each call's reply is a parameter, and the request log records only method, URI and payload.
- JSON encoding and decoding: a body is given already decoded, or as malformed. A JSON encoding failure of a POST payload is folded into the transport error.
- Query encoding: only the two query strings `GetServers` can produce are modelled ("" and "state=running").
- `ScalewayAPIError.Debug` and all debug logging.
- `Sync`, the cache's `Save`, and the loading done by `NewScalewayCache`: these are disk persistence, whose implementation is not part of this model. The loaded indexes are a constructor parameter, and the error path of `NewScalewayAPI` is not modelled.
- The cache's matching rule and de-duplication on insert: the cache's implementation is not part of this model. Lookup is an uninterpreted function of the insertion history, so properties of lookups themselves (empty needle, upsert, order independence, save/load round trip, endpoint invalidation) are not stated.
- Resource fields other than identifier and name or title (dates, volumes, kernels, addresses, state).
- `pkg/cli/help.go`: help-text rendering to standard output, with no state to reason about.
