# URL shortener: link creation and Google login, modelled in Dafny

This project models the core of a URL-shortening web service. It covers three parts.

- `POST /shorten` (`routes/url.js`) takes a long URL, an optional custom alias and an optional topic.
  It checks, in this order, that the long URL is present and that it matches a URL-shape regular expression.
  Then it settles on a short code: a custom alias that no link has yet, or the first randomly drawn six-character code that no link has.
  It saves one link record, `shortUrl = BASE_URL + "/" + shortCode`, into the ShortUrl collection and replies with `{ shortUrl, createdAt }`.
- The ShortUrl schema (`models/ShortUrl.js`) gives the link record and its embedded visit log.
  It also gives the schema's defaults (`topic` is `"general"`, `createdAt` and a visit's `timestamp` are the creation time).
  Finally it gives the collection's guarantees: the three required strings are present, and `shortCode` and `shortUrl` are each unique.
- `POST /google-login` (`routes/auth.js`) verifies a Google ID token and finds the user with that Google subject, or creates one.
  It then signs a seven-day session token for `{ userId, email }`.

Files:

- `options.dfy`: `Option`, for absent body fields and failed lookups.
- `url_pattern.dfy`: the regular expression of `routes/url.js:27`.
  `Matches` is its literal reading.
  `Test` is a simpler decision procedure used by the handler.
  `TestIsPattern` proves the two accept the same strings.
- `short_url_model.dfy`: the ShortUrl documents, the schema defaults, collection validity, what `save()` refuses, and `findOne` by code.
- `url_routes.dfy`: the `/shorten` handler.
  `ShortenOutcome` is a pure function that gives the reply and the collection afterwards, and the lemmas about it state the handler's properties.
  The class `LinkStore` holds the collection as a field.
  Its method `Shorten` is the handler written step by step, with the generation loop in `DrawFreshCode` and the insert in `Save`.
  Each of them is proved to produce exactly `ShortenOutcome`.
- `auth_routes.dfy`: the login handler.
  `Login` is a pure function over a user table, with lemmas.
  `LoginAll` runs a series of logins one after another.
  The class `UserTable` has the step-by-step handler `GoogleLogin`, proved equal to `Login`.

Modelling choices:

- The collections are sequences of documents in insertion order. `findOne` returns the first match.
- The random generator is the sequence `draws` of codes it would produce in turn.
- `Date.now` is the parameter `now`. `process.env.BASE_URL` is the store's `baseUrl`.
- The rate limiter's verdict is the input `limiterAllows`. The authenticated user id is the input `userId`.
- Google's verifier is an opaque function from the ID token to an optional payload. `None` means the call throws.
- `jwt.sign` is an opaque function from the claims and the lifetime to an optional token. `None` means it throws. The signing secret is inside it.
- Mongoose's required validator refuses an empty string, so "required" means a non-empty string.
- `save()` runs the validators first and then the unique indexes. Either refusal throws, and the handler turns a throw into 500 "Server error".

Behaviour of the code worth knowing:

- Later logins do not refresh a stored user: the handler reuses the user as stored and writes nothing back (`LoginReusesExistingUser`).
- Besides the lookup before insert, the schema's unique indexes on `shortCode` and `shortUrl` make `save()` refuse a duplicate. The model proves that refusal unreachable under `StoreInvariant` (`ShortenSucceedsOnValidStore`).
- The URL-shape test is case-sensitive, so a host that begins with an upper-case letter, as in `https://Example.com`, is refused (`RefusesUpperCaseHostStart`). Upper case later on can still match: `https://www.exAmple.com` is accepted (`AcceptsLaterUpperCase`).
- After the scheme, every character must be in `[/A-Za-z0-9_ .-]`. So a `?`, `=`, `#`, `%`, `&` or `:` there is refused, and query strings, fragments and ports are refused with it (`RefusesNonPathChar`).
- If signing fails after a new user was created, the reply is 401 "Invalid Token" but the new user stays in the table (`LoginCreatesUser`).

## Model

| member | source | states |
|---|---|---|
| `UrlPattern.TestIsPattern` | routes/url.js:27-28 | The decision procedure used by the handler accepts exactly the strings the regular expression accepts. The expression is an optional `http://`/`https://`, a non-empty `[0-9a-z.-]` run, a dot, 2-6 `[a-z.]` characters, then `[/A-Za-z0-9_ .-]*`. Both directions are proved. |
| `UrlPattern.AcceptsExamplePage` | routes/url.js:27 | `https://example.com/page` matches the pattern. |
| `UrlPattern.SplitStartsAtHost` | routes/url.js:27 | In every match the host starts right after the scheme the string begins with, its first character is a host character, and every character from there on is in `[/A-Za-z0-9_ .-]`. |
| `UrlPattern.RefusesUpperCaseHostStart` | routes/url.js:27 | The pattern has no `i` flag, so any string whose host begins with an upper-case letter is refused. |
| `UrlPattern.RefusesNonPathChar` | routes/url.js:27 | Any string with a character outside `[/A-Za-z0-9_ .-]` after its scheme is refused. |
| `UrlPattern.RefusesExampleWithUpperCase` | routes/url.js:27 | `https://Example.com` is refused. |
| `UrlPattern.RefusesQueryString` | routes/url.js:27 | `https://example.com/page?id=1` is refused. |
| `UrlPattern.AcceptsLaterUpperCase` | routes/url.js:27 | `https://www.exAmple.com` is accepted: the domain part is `ex` and `Ample.com` is tail. |
| `ShortUrlModel.FindByCode` | routes/url.js:36 | `findOne({ shortCode })` finds nothing exactly when no document has the code. Otherwise it returns the first document with that code. |
| `ShortUrlModel.SaveKeepsCollectionValid` | models/ShortUrl.js:12-14 | On a valid collection, `save()` accepts a document exactly when the collection with it appended is still valid: required strings present, and `shortCode` and `shortUrl` each unique. |
| `UrlRoutes.ShortUrlInjective` | routes/url.js:48 | `base + "/" + code` is injective in the code. |
| `UrlRoutes.DerivedUrlsAreUnique` | routes/url.js:48 | When every short URL is derived from its code with one base URL, unique codes give unique short URLs. |
| `UrlRoutes.FirstFresh` | routes/url.js:43-45 | The generation loop stops at the first draw that no document has as its code. Every earlier draw collides. |
| `UrlRoutes.ShortenRejectsMissingLongUrl` | routes/url.js:24 | A missing or empty `longUrl` gets 400 "longUrl is required", and the collection is unchanged. |
| `UrlRoutes.ShortenRejectsMalformedUrl` | routes/url.js:27-30 | A present `longUrl` that the regular expression refuses gets 400 "Invalid URL format", and the collection is unchanged. |
| `UrlRoutes.ShortenRejectsTakenAlias` | routes/url.js:35-39 | A truthy alias that is already some document's code gets 400 "Custom alias already taken", and nothing is inserted. |
| `UrlRoutes.ShortenFailureChangesNothing` | routes/url.js:24-69 | Every error reply, the 500 included, leaves the collection unchanged. |
| `UrlRoutes.ShortenSuccessAppendsOneRecord` | routes/url.js:48-65 | On success, exactly one record is appended and the old ones are untouched. The record has the given long URL and a code no document had. Its `shortUrl` is `base + "/" + code`, its topic is the topic (or "general" when the topic is falsy), its creator is the caller, its creation time is now, and it has no visits; these are the schema defaults of models/ShortUrl.js:15-18 as the saved record gets them. The reply is that record's `shortUrl` and `createdAt`. |
| `UrlRoutes.ShortenCodeChoice` | routes/url.js:35-46 | A truthy alias becomes the code verbatim, with no length or charset check. Otherwise the code is the first non-colliding draw, which has six alphanumeric characters. |
| `UrlRoutes.ShortenSucceedsOnValidStore` | routes/url.js:35-59 | On a collection that keeps the invariant, a truthy well-formed URL with no taken alias always succeeds. So the save never throws and the 500 reply cannot occur. |
| `UrlRoutes.ShortenPreservesStoreInvariant` | routes/url.js:35-59 | The handler keeps the collection valid, with codes and short URLs unique and every short URL derived from its code. |
| `UrlRoutes.ShortenExamplePage` | routes/url.js:19-65 | Shortening `https://example.com/page` with no alias or topic into an empty collection saves the first draw as a six-character code under topic "general". It replies with `base + "/" + code` and the request time. |
| `UrlRoutes.LinkStore.DrawFreshCode` | routes/url.js:43-45 | The do-while loop returns a code no document has, and that code is the first such draw. |
| `UrlRoutes.LinkStore.Save` | routes/url.js:59 | `save()` appends the document when the schema accepts it. Otherwise it reports the refusal and changes nothing. |
| `UrlRoutes.LinkStore.Shorten` | routes/url.js:20-69 | The step-by-step handler gives exactly `ShortenOutcome`'s reply and collection, and it keeps the store invariant. |
| `UrlRoutes.LinkStore.PostShorten` | routes/url.js:11-19 | When the rate limiter refuses, the reply is 429 with its message and nothing is saved. Otherwise the handler runs. |
| `AuthRoutes.FindByGoogleId` | routes/auth.js:24 | `User.findOne({ googleId: sub })` finds nothing exactly when no user has that subject. Otherwise it returns the first such user. |
| `AuthRoutes.LoginRejectsUnverifiedToken` | routes/auth.js:16-46 | A token that fails verification gets 401 "Invalid Token". No token is issued and the table is unchanged. |
| `AuthRoutes.LoginReusesExistingUser` | routes/auth.js:24-26 | A known subject reuses the stored user as it is, and the table is unchanged. |
| `AuthRoutes.LoginCreatesUser` | routes/auth.js:26-33 | An unknown subject gets exactly one new user, with the payload's subject, name, email and picture and a fresh id. The old users are untouched, even when signing then fails. |
| `AuthRoutes.LoginTokenClaims` | routes/auth.js:36-42 | Any issued token is the signer's output for exactly `{ userId: user.id, email: user.email }` with lifetime "7d". The reply's user is the table's user for the verified subject. |
| `AuthRoutes.LoginKeepsTableValid` | routes/auth.js:24-33 | One login keeps at most one user per subject, and keeps the ids distinct. |
| `AuthRoutes.LoginsKeepOneUserPerGoogleId` | routes/auth.js:24-33 | After any series of sequential logins there is at most one user per Google subject, and each login adds at most one user. |
| `AuthRoutes.UserTable.GoogleLogin` | routes/auth.js:11-47 | The step-by-step handler gives exactly `Login`'s reply and table, and it keeps the table valid. |

## Left out

- The rate limiter (`express-rate-limit`, 5 requests per hour per user) is a library with shared counters. It counts every request that reaches it, including those the handler then refuses with 400. Only its verdict is modelled, as an input. Its window and counting are not.
- The authentication middleware is not part of this model. The caller's user id is an input.
- `UrlRoutes.LinkStore.Shorten`: the random draw is modelled as a finite sequence. It is modelled only on runs whose draws hold a non-colliding code when the loop is reached. In the source the loop keeps drawing, so a run could in principle not end.
- An unset `BASE_URL` would render as the text `undefined`. Here the base URL is a plain string.
- Database connection failures, and a `findOne` that throws, are I/O and are not modelled. The only store failure modelled is `save()` refusing a document, which the handler maps to 500.
- Two concurrent requests can both check a code and then insert it. This is concurrency; requests are modelled one at a time.
- Body fields are modelled as optional strings. Numbers, booleans and objects in the JSON body are not modelled. For example, an object given as `customAlias` would be used as a query.
- Error logging to the console is not modelled.
- The User schema is not part of this model. `User.create` is assumed never to throw, and `_id` values come from a counter.
- Token cryptography is not modelled: what `verifyIdToken` checks (signature, audience, expiry) and what `jwt.sign` produces are opaque. The Google payload's `sub` is taken to be always present.
- The redirect, visit capture and analytics routes are not part of this model. So no modelled operation appends visits. `NewVisit` defines a visit entry with its timestamp default, and nothing is proved about it.
- `swagger.js`, `redisClient.js` and `app.js` hold setup and I/O only and are not modelled.
- The running time of the regular expression is not modelled; the model gives only its final answer. The nested star in `([\/\w .-]*)*` lets a backtracking engine try exponentially many splits of a long run of path characters before it refuses a string, for example `https://example.com/` followed by 40 letters and a `?`. Such a test would block the server's single event loop. Nothing was executed to confirm this.
