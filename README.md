# LinkShrink redirect, link and user services in Dafny

This project models the request handlers at the core of a URL-shortening platform made of small HTTP services:

- **Redirect service** (`RedirectService`, `redirect_service.dfy`). `GET /{short_code}` reads the Redis cache, but only when a Redis client exists. On a truthy hit it publishes a click event and answers 307 to the cached URL. On a miss it asks the link service at `LINK_SERVICE_URL + "/internal/links/" + code`. If that yields a truthy URL, the service writes it to Redis with `ex=3600` (again only with a client), publishes a click event and answers 307. Otherwise it raises 404 "Link not found". Publishing to the durable `clicks` queue with `delivery_mode=2` swallows every failure. `GET /health` reports whether the Redis client exists.
- **Link service** (`LinkService`, `link_service.dfy`). `get_current_user` accepts a token whose decoded payload carries both `sub` and `user_id`. `create_link` stores a row with a fresh 7-character nanoid code and the caller's id, and answers `http://localhost:8080/<code>`. `get_user_links` lists the caller's rows.
- **User service** (`UserService`, `user_service.dfy`). `create_user` rejects an email that is already registered with 400. Otherwise it stores the email with the bcrypt hash of the password and answers only the id and the email.
- `Http` (`http.dfy`) holds what the three share: `Option`, JSON objects read with `dict.get`, `HttpError` and `Result`.

How the outside world is represented:
- The Redis keyspace is the `cache` map field of `Redirector`. `cacheConnected` is `redis_client is not None`, fixed at start-up.
- The link service is a function from URL to `ApiAnswer`. The `lookups` field logs every URL requested, so "the link service was or was not asked" is a postcondition.
- The broker is the `clicks` sequence plus the flag `clicksDurable`.
- The `links` and `users` tables are sequence fields of `LinkTable` and `UserTable`. Their `Valid()` invariants are the tables' unique columns.
- These opaque values are parameters: `jwt.decode` (a partial function from token to payload), bcrypt (a function), the nanoid code (the subset type `ShortCode`), uuid4 ids, the `datetime.now` timestamp string, and which client call raises (`CacheFault`, `BrokerStep`).

Two points about the redirect code are easy to miss:
- An error from an existing Redis client's `get` or `set` (redirect-service/main.py:126, :142) is not caught. The request fails with 500, as `Resolve` and `PerformRedirect` state.
- `publish_click_event`'s docstring calls it asynchronous (redirect-service/main.py:51), but it runs synchronously inside the handler (:131, :144).

## Model

| member | source | states |
|---|---|---|
| `Http.Get` | redirect-service/main.py:95 | `dict.get` on a JSON object: a value only when the key is present and not null |
| `RedirectService.LookupUrl` | redirect-service/main.py:87 | the lookup URL is the string `base + "/internal/links/" + code`: stripping that prefix gives back exactly `code` |
| `RedirectService.LookupUrlInjective` | redirect-service/main.py:87 | distinct short codes are looked up at distinct URLs |
| `RedirectService.LinkFromApi` | redirect-service/main.py:93-105 | a URL only on status 200, and then exactly the body's `original_url` (None if absent or null); None on 404, on any other status and on a request exception |
| `RedirectService.ClickFor` | redirect-service/main.py:61-73 | a click delivery goes to routing key `clicks` on the default exchange with delivery mode 2 and carries `{short_code, timestamp}` |
| `RedirectService.Resolve` | redirect-service/main.py:124-149 | hit: 307 to the cached value, no lookup, no write, one event; miss with a truthy URL: 307 to it, link service asked, cache written iff a client exists, one event; no truthy URL: 404 "Link not found", no write, no event; "" counts as absent; with no client the outcome depends only on the link service's answer; a raising client gives 500; an event goes out iff the answer is a redirect |
| `RedirectService.RepeatedRedirectHitsCache` | redirect-service/main.py:125-145 | after a miss populated the cache, the next request for the code is a hit with the same redirect and no lookup |
| `RedirectService.Redirector.constructor` | redirect-service/main.py:36-42 | the client exists iff the start-up ping succeeded; the cache holds what Redis held; nothing requested or published yet |
| `RedirectService.Redirector.CacheGet` | redirect-service/main.py:126 | `redis_client.get`: the stored value, or None when the key is absent |
| `RedirectService.Redirector.HealthCheck` | redirect-service/main.py:111-114 | status is always "ok" and `redis_connected` is whether a client exists |
| `RedirectService.Redirector.PublishClickEvent` | redirect-service/main.py:48-79 | never fails; the queue is declared durable iff the declare step completed; exactly one delivery for the code is appended iff the publish step completed (a failing close still delivers); nothing else changes |
| `RedirectService.Redirector.GetLinkFromApi` | redirect-service/main.py:81-105 | exactly one request, to `LookupUrl`, is logged, and the result is `LinkFromApi` of its answer |
| `RedirectService.Redirector.PerformRedirect` | redirect-service/main.py:116-149 | the outcome is `Resolve`'s and does not depend on the publish fault; the lookup log, cache, expiry (3600), event log and durable flag change only as `Resolve` says; the invariant (expiries 3600, every event on `clicks` with mode 2, events only after a durable declare) is kept |
| `LinkService.CurrentUser` | link-service/main.py:72-86 | accepted iff decoding succeeds and both `sub` and `user_id` are present and not null; then `id` is `user_id` and `email` is `sub`; otherwise 401 "Could not validate credentials" |
| `LinkService.ShortUrl` | link-service/main.py:110 | the short URL is built on `http://localhost:8080/`, and the code reads back from it |
| `LinkService.OwnedBy` | link-service/main.py:117 | a row is listed iff it is in the table and carries the user's id |
| `LinkService.OwnedByAppend` | link-service/main.py:117 | the filter splits over concatenation, so it keeps the order of the modelled table |
| `LinkService.AsResponses` | link-service/main.py:119-125 | one item per row, in order; each short URL names the row's code and each original URL is the stored one |
| `LinkService.AsResponsesAppend` | link-service/main.py:119-125 | the response mapping splits over concatenation |
| `LinkService.ListingAfterInsert` | link-service/main.py:106-125 | an inserted row appears as the last item of its owner's listing and leaves every other user's listing unchanged |
| `LinkService.LinkTable.CreateLink` | link-service/main.py:92-110 | without credentials: 401 and the table unchanged; on a collision of the code or id: 500 and the table unchanged; otherwise exactly one row (request URL, generated code, caller's id) is appended, the answer is the short URL with the URL echoed, and the new link ends its owner's listing; uniqueness of ids and codes is kept |
| `LinkService.LinkTable.GetUserLinks` | link-service/main.py:112-125 | 401 iff authentication fails; otherwise exactly the caller's rows, as responses, in the order of the modelled table |
| `UserService.FindByEmail` | user-service/main.py:56 | the position of the first row with the email, or None iff no row has it |
| `UserService.FirstIsOnly` | user-service/main.py:24 | with unique emails the lookup finds the one row that carries the email |
| `UserService.FindAfterAppend` | user-service/main.py:56-64 | after an insert the lookup finds the earlier row, or else the new row when it carries the email |
| `UserService.UserTable.CreateUser` | user-service/main.py:53-67 | a registered email gives 400 "Email already registered" and the table unchanged; otherwise exactly one row with the email and `hash(password)` is appended (500 and no change on an id collision); the response holds only id and email; email uniqueness is kept and the email now finds the new row |

## Left out

- HTTP routing, FastAPI dependency injection and request validation (a 422 for a malformed body) are not modelled. Neither are the SQLAlchemy sessions or the Redis, pika and requests clients themselves. Only their observable answers appear, as parameters or fields.
- Configuration from the environment, logging, the start-up ping itself and TLS are not modelled. The broker connection parameters (host, port 5671, credentials) are left out too: they decide only whether `Connect` fails.
- The JSON encoding of the click message is shown as a `ClickMessage` value, not as text.
- Clocks, randomness and crypto are left out. `datetime.now`, `nanoid.generate`, `uuid4`, bcrypt and `jwt.decode` are opaque parameters.
- Redis expiry over time is not modelled. Only the `ex=3600` argument each write passes is recorded.
- Concurrency between requests (the benign double write of a cache key) is left out: the model is sequential.
- Relative order across the separate logs (cache write before publish) is not modelled.
- `RedirectService.Redirector.PerformRedirect`: a `set` that raises is modelled as not having written the key. A timeout after the server applied the write is not modelled.
- `RedirectService.Redirector.PublishClickEvent`: a `basic_publish` that raises is modelled as delivering nothing.
- `RedirectService.ApiAnswer`: a 200 body is assumed to be a JSON object. A body that is not JSON, or a JSON value that is not an object, is not modelled. A non-string value of `original_url` is not modelled either.
- `LinkService.CurrentUser`: the `WWW-Authenticate: Bearer` header of the 401 is not modelled. Non-string values of `sub` and `user_id` are not modelled either.
- `RedirectService.LookupUrl`: the code is inserted unescaped, so a code containing `?`, `#` or `%` names a different path (or adds a query or fragment) once the URL is parsed. The model treats URLs as strings, not as parsed URLs.
- `LinkService.LinkTable.GetUserLinks`: the query has no ORDER BY, so the database promises no order. The model lists rows in insertion order.
- The success status codes (201 for `create_link` and `create_user`, 200 elsewhere) are not modelled; `Ok` stands for any success. `OAuth2PasswordBearer`'s own 401 "Not authenticated" for a request without a bearer token is not modelled either: `token` is always present.
- `GET /health` of the link service and `GET /ping` of the user service are constant answers and are not part of this model.
- The analytics consumer, the web and Vue front ends and the service template are not part of this model.
- The link service's `/internal/links/{short_code}` endpoint is not part of this model: the link service shown does not define it. The redirect service sees it only through `ApiAnswer`.
