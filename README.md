# toa-cors, modelled in Dafny

This project models `toa-cors`, the CORS middleware of the Toa web framework. It follows the CORS protocol of the WHATWG Fetch Standard (its "CORS protocol" and "CORS-preflight fetch" parts). The model covers three things:

- **Option merging** (`toaCORS(opts)`). Every field of the caller's option object that is left `null` or `undefined` takes its value from the default table. The merge changes the caller's object in place, in a loop over the default table's keys. If no `allowOriginsValidator` was supplied, a default validator is built from `allowOrigins`. Here `Options` is a class with `Option` fields and `FillDefaults` is that loop. `ToaCors` returns the resolved `Policy` that the handler reads.
- **The default origin validator.** It scans `allowOrigins` and answers the request origin when that origin or `"*"` is listed. Otherwise it answers `""`.
- **The per-request handler `cors()`.** It adds `Origin` to `Vary` and passes a request without an origin through. It refuses an origin the validator rejects (403). Otherwise it sets the credentials and allow-origin headers. For an `OPTIONS` request it then either withdraws that grant and refuses the request (403, when `Access-Control-Request-Method` is missing) or writes the preflight header set and ends the response with 204. For any other request it writes `Access-Control-Expose-Headers`.

`Evaluate` is a pure function that gives the handler's whole effect on a response state. `Cors` is a method that performs the same header writes one at a time on a mutable `Response`, and it is proved to end in the state that `Evaluate` describes. The branch properties are lemmas about `Evaluate`. The lemmas in `CorsScenarios` restate the cases of the repository's test suite, on configurations that its `Resolve` methods obtain from the tests' option objects through `ToaCors`.

Modules: `Wrappers` (the `Option` type), `Strings` (`Join`, `Decimal`, ASCII lower-casing), `Http` (the request snapshot, response state, outcome and `Response` class), `CorsOptions` (defaults, merge, default validator), `CorsHandler` (the handler) and `CorsScenarios` (the tested cases).

Where the code and its documentation disagree, the model follows the code:

- The comment at `index.js:24-27` says that setting a validator makes `allowMethods` be ignored. The code still advertises `allowMethods` in every preflight. A validator only replaces the `allowOrigins` check.
- The code requests 403 and 204 (`index.js:58`, `index.js:80`, `index.js:100`). The tests observe 200, because the framework renders these statuses. The model records what the code requests.

## Model

| member | source | states |
|---|---|---|
| `Strings.JoinStartsWithFirst` | index.js:84 | The joined string of a non-empty list starts with its first element. |
| `Strings.JoinLength` | index.js:84 | The joined string is as long as all elements together plus one separator between each pair of neighbours. |
| `Strings.JoinSnoc` | index.js:84 | Joining a non-empty list with one more element appends the separator and that element, so `join` keeps the configured order. |
| `Strings.JoinAgreesWithJoinFromEnd` | index.js:84 | `Join`, built from the front, equals an independent definition built from the back, for every list. |
| `Strings.JoinConcat` | index.js:89 | Joining two non-empty lists equals joining each one and putting the separator between them. |
| `Strings.JoinIsEmpty` | index.js:87-95 | With a non-empty separator, the joined string is empty if and only if the list is `[]` or `[""]`. |
| `Strings.Decimal` | index.js:98 | `String(maxAge)` of a non-negative integer is a canonical decimal numeral: non-empty, digits only, and no leading zero unless the number is 0. |
| `Strings.DecimalRoundTrip` | index.js:98 | Reading back the numeral that `Decimal` writes gives the original number. |
| `Strings.DecimalValueRoundTrip` | index.js:98 | Every canonical numeral is exactly what `Decimal` writes for its value, so `Decimal` is a bijection onto canonical numerals. |
| `CorsOptions.DefaultValidator` | index.js:37-44 | The default validator answers the origin exactly when the origin or `"*"` is in `allowOrigins`, and answers `""` otherwise. |
| `CorsOptions.DefaultValidatorFor` | index.js:37-44 | The validator built over a list of origins, called on any origin, answers that origin when it or `"*"` is listed and `""` otherwise. |
| `CorsOptions.DefaultOriginsAcceptEveryOrigin` | index.js:9 | With the default `allowOrigins` of `["*"]`, every origin is accepted and echoed unchanged. |
| `CorsOptions.Options.FillDefault` | index.js:34 | For one key, a field left null takes its default and a supplied field is kept. Every other field is unchanged. The validator key's default is null, so that field never changes. |
| `CorsOptions.Options.FillDefaults` | index.js:33-35 | After the loop over the default keys, every field holds its supplied value (`false`, `0` and `[]` included) or its default. The validator is unchanged. |
| `CorsOptions.ToaCors` | index.js:31-45 | A missing option object counts as `{}`. The policy's fields are the supplied values or the defaults. A supplied validator is used as given. The default validator over the merged `allowOrigins` is built only when none was supplied. The caller's object is updated in place to the merged options. |
| `CorsHandler.NotAllowedMessage` | index.js:58 | The refusal message is the origin framed by `Origin "` and `" is not allowed`, so the refused origin can be read back from it exactly. |
| `CorsHandler.PreflightAllowHeaders` | index.js:87-92 | With allowed headers configured, the value starts with the first of them (it is their join). Without, it is the raw `Access-Control-Request-Headers` value. It is empty if and only if the configured list is `[""]`, or, when none is configured, the request asked for no headers. |
| `CorsHandler.Grant` | index.js:60-66 | A granted request gets `Access-Control-Allow-Origin` set to the validator's answer. `Access-Control-Allow-Credentials: true` is set when credentials are on; otherwise that header is left alone. No other header changes. |
| `CorsHandler.AnswerPreflight` | index.js:83-101 | Allow-Methods is set to the joined configured methods when there are any. Allow-Headers is set to the chosen value when it is non-empty. Max-Age is set to the decimal when it is positive. The status becomes 204. No other header changes. |
| `CorsHandler.AnswerActual` | index.js:104-106 | Expose-Headers is set to the joined list when the list is non-empty. No other header changes. |
| `CorsHandler.Evaluate` | index.js:47-59 | `Origin` is added to `Vary` first, whatever the outcome. Without an origin the result is Continue and nothing but `Vary` changes. A rejected origin gives `Rejected(403, Origin "<origin>" is not allowed)` with no header written. |
| `CorsHandler.OnlyCorsHeadersChange` | index.js:47-107 | In every branch, a header outside the six CORS response headers keeps its value. |
| `CorsHandler.ActualRequestGranted` | index.js:60-106 | A granted non-`OPTIONS` request gives Continue. Allow-Origin is the validator's answer, credentials are as configured, and Expose-Headers is the joined list when it is non-empty. `Vary` is only `Origin` added. Allow-Methods, Allow-Headers, Max-Age and the status are untouched. |
| `CorsHandler.PreflightWithoutRequestMethod` | index.js:69-81 | An `OPTIONS` request without `Access-Control-Request-Method` gives `Rejected(403, invalid preflighted request, …)`. `Vary` gains the two request headers. The headers are the original ones minus Allow-Origin and Allow-Credentials. |
| `CorsHandler.PreflightAnswered` | index.js:69-101 | A valid preflight gives Ended with status 204 and the preflight `Vary`. It keeps the allow-origin and credentials grant and never touches Expose-Headers. |
| `CorsHandler.PreflightHeaderSet` | index.js:83-99 | A valid preflight sets Allow-Methods to the configured methods joined in order (when non-empty). It sets Allow-Headers to the configured list, or else to the raw `Access-Control-Request-Headers` (when the chosen value is non-empty). It sets Max-Age to `Decimal(maxAge)` (when positive). |
| `Http.AddVaryThree` | index.js:49-71 | Adding three distinct fields to `Vary` keeps what it listed and appends, in order, exactly those of the three it did not list yet. |
| `CorsHandler.PreflightVaryAppendsUnlisted` | index.js:49-71 | On a preflight, `Vary` keeps its earlier fields and gains, in this order, whichever of `Origin`, `Access-Control-Request-Method` and `Access-Control-Request-Headers` it lacked. |
| `CorsHandler.PreflightVaryFromEmpty` | index.js:49-71 | Starting from an empty `Vary`, a preflight leaves `Vary` as `Origin, Access-Control-Request-Method, Access-Control-Request-Headers`. |
| `CorsHandler.WildcardGrantsEveryOrigin` | index.js:36-66 | With the default validator over a list containing `"*"`, every actual request that carries an origin continues, with that origin echoed in Allow-Origin. |
| `CorsHandler.CredentialsHeaderExactlyWhenConfigured` | index.js:60-65 | For a granted request that is not an invalid preflight (an `OPTIONS` request without `Access-Control-Request-Method`), on a response without a credentials header, the credentials header is present if and only if `credentials` is true. Its value is then `"true"`. No wildcard check is made. |
| `CorsHandler.PreflightHeadersExactlyWhen` | index.js:83-99 | On a granted, valid preflight (an `OPTIONS` request carrying `Access-Control-Request-Method`) and a response without these three headers, Allow-Methods is present if and only if methods are configured, and Max-Age if and only if `maxAge > 0`. Allow-Headers is present if and only if the configured list is neither `[]` nor `[""]`, or, when the list is empty, the request asked for headers. |
| `CorsHandler.ExposeHeadersOnlyOnActualRequests` | index.js:104-106 | On a fresh response, Expose-Headers is present if and only if the request is an accepted non-`OPTIONS` request and the expose list is non-empty. |
| `CorsHandler.Cors` | index.js:47-107 | The handler's step-by-step writes to the mutable response, and its returned outcome, are exactly what `Evaluate` gives for the initial state. |
| `CorsScenarios.ResolveDefaultsWithCredentials` | test/index.js:12-14 | Merging `{credentials: true}` through `toaCORS` gives the default policy with credentials on and the default validator over `["*"]`. |
| `CorsScenarios.ResolveSomeOptions` | test/index.js:37-44 | Merging the option object that gives every field but the validator yields exactly those values and the default validator over `["test.org"]`. |
| `CorsScenarios.ResolveCustomValidator` | test/index.js:130-132 | Merging an object with only a validator keeps every default and uses that validator as given. |
| `CorsScenarios.DefaultMethodsJoined` | test/index.js:29 | The default methods are advertised as `GET, HEAD, PUT, POST, DELETE, PATCH`. |
| `CorsScenarios.DefaultPreflight` | test/index.js:21-32 | The default options with credentials, on a valid preflight from `test.org`, give 204 with Allow-Origin `test.org`, the six methods, credentials `true` and the three-field `Vary`. |
| `CorsScenarios.MissingOrigin` | test/index.js:51-59 | No Origin gives Continue, `Vary: Origin` and no Allow-Origin. |
| `CorsScenarios.OriginNotListed` | test/index.js:61-70 | `not-allowed.org` against `["test.org"]` is refused with 403, with `Vary: Origin` and no Allow-Origin. |
| `CorsScenarios.ActualRequestWithOptions` | test/index.js:111-125 | A simple request from `test.org` gets Allow-Origin, credentials and Expose-Headers. It gets no Max-Age, Allow-Methods or Allow-Headers. |
| `CorsScenarios.PreflightMissingRequestMethod` | test/index.js:81-91 | A preflight without a request method is refused, with neither Allow-Origin nor Allow-Credentials and with the three-field `Vary`. |
| `CorsScenarios.SomeOptionsRendered` | test/index.js:101-102 | `["GET", "PUT"]` joins to `GET, PUT`, and max age 10 renders as `10`. |
| `CorsScenarios.PreflightWithOptions` | test/index.js:93-109 | A valid preflight with every option given carries Max-Age `10`, Allow-Methods `GET, PUT`, Allow-Headers `CORS-Test-Allow-Header` and credentials, and no Expose-Headers. |
| `CorsScenarios.PreflightEchoesRequestedHeaders` | index.js:87-95 | With no allowed headers configured, a preflight asking for `X-Foo` gets `Access-Control-Allow-Headers: X-Foo`. |
| `CorsScenarios.CustomValidatorRewritesOrigin` | test/index.js:139-146 | A custom validator's answer `test-origin.com` becomes Allow-Origin for a request from `test.com`. |
| `CorsScenarios.CustomValidatorRefusesOrigin` | test/index.js:148-157 | A custom validator that answers `""` refuses the origin, and no Allow-Origin is written. |

## Left out

- The Toa framework, the test HTTP client and `app.listen()` are not modelled. `this.vary`, `get`, `set`, `remove`, `status`, `end` and `throw` become operations on `Http.Response` plus the returned `Outcome`. How the framework renders a thrown 403 or an ended 204 (the tests see 200) is not modelled.
- The `this` context that `allowOriginsValidator.call(this, origin)` passes is not modelled. The validator is a function of the origin only.
- Case-insensitive response header names and the case-insensitive de-duplication of `Vary` are host behaviour. Response header names are exact keys, and `Vary` is a list with append-if-absent, kept beside the header table rather than inside it. Request lookup lower-cases the ASCII letters of the name it asks for, because the host delivers request headers under lower-case names.
- JavaScript's dynamic typing is not modelled. Options have fixed types: `maxAge` is an integer and `credentials` a boolean rather than any truthy value. Only a `null` or missing option object counts as `{}`, not other falsy values. `Object.keys` over a sparse or decorated `allowOrigins` array is not modelled.
- `Strings.Decimal`: `String(maxAge)` is modelled for non-negative integers only. The fractional numbers and the exponent forms that JavaScript writes from 10^21 on are not modelled, because options are typed.
- `CorsOptions.ToaCors`: the default validator captures the merged `allowOrigins` when `toaCORS` runs. The source's closure reads `opts.allowOrigins` at each call, so a later change to the caller's object would be visible there but not in the model. The handler itself also re-reads `opts` on every request (`index.js:55`, `60`, `83`, `88`, `97`, `104`). The model covers that because `Cors` takes the `Policy` as an argument on each call, so only the validator's captured list is frozen.
- `CorsOptions.Options.FillDefaults`: the filled-in defaults share the arrays of the default table by reference (`index.js:34`), so a caller that mutated one would change the defaults of every later `toaCORS`. Sequences here are values, so that aliasing is not modelled.
- No check against combining a wildcard origin with credentials, because the code makes none.
- Nothing here performs I/O, uses clocks or randomness, or runs concurrently; each evaluation is one synchronous call.
