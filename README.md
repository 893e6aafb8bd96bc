# Request-outcome pipeline of ts-node-skeleton, in Dafny

This project models the request-outcome pipeline of the ts-node-skeleton
service. That pipeline covers how a request is admitted, how a use case
reaches exactly one outcome, and how that outcome becomes an HTTP response.
The model has four parts plus two support modules:

- `BaseControllers` — the base controller.
  - The process-wide status-mapping table (application status to HTTP
    status) keeps the first non-zero HTTP status registered for each status.
    Routes feed it from their `produces` lists.
  - The router and the API-doc generator receive each added route.
  - `handleResult`, `handleResultDto` and `handleResultData` turn a
    settled use-case promise into either a response (transaction-id header,
    caller headers, status, payload) or a call to `next(error)`. Either way
    they then finalise the use-case trace. A trace whose registration fails
    is logged, not re-raised.
- `AuthorizationGate` — the authorization middleware.
  - A whitelisted request passes.
  - Any other request needs an `authorization` header that splits on
    whitespace into exactly two words, and the second word must verify as a
    session token.
  - Every refusal is the same UNAUTHORIZED `ApplicationError`.
- `RegisterUser` — the register-user use case. It runs these steps in a
  fixed order and ends in exactly one returned result or one exception:
  1. DTO validation;
  2. building the user, which hashes the password on a worker;
  3. the email check;
  4. the duplicate-email check;
  5. the password check;
  6. persistence.
- `UserDtos` — the user DTO conversions: from request JSON, to and from the
  domain user, to response JSON and to credentials. The field sets submitted
  to the validator are modelled too.
- `Text` — the semantics of `String.prototype.split(/\s+/)`, with round trips
  in both directions, and ASCII lower-casing.
- `Common` — shared values:
  - application statuses;
  - message keys;
  - error values;
  - the framework's `next` continuation, which records its calls.

Where the source changes state step by step, the model is imperative:
- `BaseController`, `StatusMapping`, `Response`, `Router` and
  `ApiDocGenerator` are classes;
- the `RegisterUserUseCase` class keeps its collaborators' calls in a
  journal;
- the middleware's `Request` is a class.

Each such method is proved against a function of the old
state, and the lemmas about those functions state what the source promises:
- `RegisterAll` and `ApplyHeaders` for the controller;
- `Decide` for the middleware;
- `Execution` for the use case.

Collaborators whose code is not part of this model are parameters, so the
properties hold for every behaviour they could have:
- `verifyJwt`;
- `ArrayUtil.allOrDefault`;
- the validator;
- `Email.isValid`;
- password validation;
- the hashing worker;
- `HttpStatusResolver.getCode`;
- the repositories' outcomes.

Two behaviours of the code differ from what its design suggests, and the
model follows the code:
- **Status mapping, entry of 0.** The table is meant to keep the first
  registration for each status, but `setProducesCode` tests the existing
  entry for truthiness, so an entry of 0 is overwritten (`SetProduces`).
- **Hashing before the email check.** The use case reads as validate first,
  then act, but `execute` builds the user, and so has the worker hash the
  password, before the email and the password are checked (`Execution`,
  `InOrder`).

## Model

| member | source | states |
|---|---|---|
| BaseControllers.SetProduces | src/adapters/controllers/base/Base.controller.ts:127-131 | The key set gains the status. An unsettled status (absent or 0) takes the new HTTP status, a settled one keeps its value. No other status changes. |
| BaseControllers.SetProducesIdempotent | src/adapters/controllers/base/Base.controller.ts:128-130 | Repeating the same registration leaves the table as one registration does. |
| BaseControllers.SetProducesFirstWriteWins | src/adapters/controllers/base/Base.controller.ts:128-130 | After a non-zero registration, a later registration for the same status, with any HTTP status, changes nothing. |
| BaseControllers.RegisterAll | src/adapters/controllers/base/Base.controller.ts:158-160 | `produces.forEach(setProducesCode)` in list order: the old keys stay, and every listed status becomes a key. |
| BaseControllers.RegisterAllAppend | src/adapters/controllers/base/Base.controller.ts:158-160 | Registering a `produces` list in two pieces equals registering it in one go. |
| BaseControllers.RegisterAllKeys | src/adapters/controllers/base/Base.controller.ts:158-160 | After `addRoute`'s loop, the table's keys are the old keys plus every listed status. |
| BaseControllers.RegisterAllOthersUnchanged | src/adapters/controllers/base/Base.controller.ts:158-160 | A status the list does not mention keeps its presence and its value. |
| BaseControllers.RegisterAllKeepsSettled | src/adapters/controllers/base/Base.controller.ts:158-160 | A status with a non-zero entry keeps that entry, whatever the list says. |
| BaseControllers.RegisterAllFirstNonZeroWins | src/adapters/controllers/base/Base.controller.ts:158-160 | For an unsettled status, the table ends with the first non-zero HTTP status listed for it, in list order. |
| BaseControllers.RegisterAllUnsettledStays | src/adapters/controllers/base/Base.controller.ts:158-160 | A status that is unsettled and only ever listed with 0 stays unsettled. |
| BaseControllers.RegisterAllAbsorbed | src/adapters/controllers/base/Base.controller.ts:158-160 | A table in which every listed entry is already settled, or is listed with 0 over an existing key, is left unchanged by the list. |
| BaseControllers.RegisterAllSettlesListed | src/adapters/controllers/base/Base.controller.ts:158-160 | A status listed with a non-zero HTTP status is settled once the list is registered. |
| BaseControllers.RegisterAllIdempotent | src/adapters/controllers/base/Base.controller.ts:158-160 | Adding a route's `produces` twice leaves the table as adding it once. |
| BaseControllers.ApplyHeaders | src/adapters/controllers/base/Base.controller.ts:73-77 | `Object.entries(headersToSet).forEach(setHeader)` in order: the old header names stay, and every written name is present. |
| BaseControllers.ApplyHeadersUntouched | src/adapters/controllers/base/Base.controller.ts:73-77 | A header name the caller never writes keeps its presence and its value. |
| BaseControllers.ApplyHeadersLastWins | src/adapters/controllers/base/Base.controller.ts:73-77 | The last caller header written under a name decides that header's value. |
| BaseControllers.TransactionIdHeader | src/adapters/controllers/base/Base.controller.ts:69-77 | The transaction-id header is written before the caller's headers. Without a caller header of that name it holds the transaction id. With one, the caller's last value overrides it. With no caller headers only the transaction id is added. |
| BaseControllers.Payload | src/adapters/controllers/base/Base.controller.ts:79-109 | Every shape emits the result it was given. The whole result is emitted exactly for `getResult`. The bare `data` is emitted exactly for `getResultData` when `message` is falsy. |
| BaseControllers.UseCaseTrace.Finish | src/adapters/controllers/base/Base.controller.ts:113 | `finish(date)` sets the trace's finishing time. |
| BaseControllers.TraceRepository.Register | src/adapters/controllers/base/Base.controller.ts:114 | `register` either stores the trace record or reports the store's rejection. |
| BaseControllers.LogProvider.LogError | src/adapters/controllers/base/Base.controller.ts:115-122 | `logError` appends one error log. |
| BaseControllers.Response.SetHeader | src/adapters/controllers/base/Base.controller.ts:70 | `res.setHeader` writes one header and leaves the status and body alone. |
| BaseControllers.Response.Send | src/adapters/controllers/base/Base.controller.ts:86 | `res.status(code).json(body)` sets the status and the body and leaves the headers alone. |
| BaseControllers.Router.Add | src/adapters/controllers/base/Base.controller.ts:165 | `router[method](path, ...handlers)` records one mount. |
| BaseControllers.ApiDocGenerator.AddRoute | src/adapters/controllers/base/Base.controller.ts:168-178 | The generator records one route description. |
| BaseControllers.BaseController.constructor | src/adapters/controllers/base/Base.controller.ts:48-59 | A controller starts with no router and no API-doc generator, and with its context, trace repository and log provider fixed. |
| BaseControllers.BaseController.SetApiDocGenerator | src/adapters/controllers/base/Base.controller.ts:61-63 | Sets the generator and leaves the router alone. |
| BaseControllers.BaseController.SetRouter | src/adapters/controllers/base/Base.controller.ts:65-67 | Sets the router and leaves the generator alone. |
| BaseControllers.BaseController.SetProducesCode | src/adapters/controllers/base/Base.controller.ts:127-131 | The shared table becomes `SetProduces` of the old table. |
| BaseControllers.BaseController.RegisterProduces | src/adapters/controllers/base/Base.controller.ts:158-160 | The loop leaves the shared table as `RegisterAll(old table, produces)`: every pair registered in list order. |
| BaseControllers.BaseController.AddRoute | src/adapters/controllers/base/Base.controller.ts:133-180 | The table becomes `RegisterAll(old table, produces)`, in list order, even when the router is unset. It throws "Router not initialized, …" exactly when the router is unset; otherwise the route is mounted once. The generator, when present, documents the route only when the router is set. |
| BaseControllers.BaseController.WriteHeaders | src/adapters/controllers/base/Base.controller.ts:69-77 | The headers become the transaction id, then the caller's headers in order (`ApplyHeaders`). Status and body are untouched. |
| BaseControllers.Outcome | src/adapters/controllers/base/Base.controller.ts:79-109 | How a `handleResult*` call ends: it sends exactly when the result resolved, a trace is present and the resolver answers a code, and then with that code. A rejection is forwarded as is; a missing trace forwards the `transactionId` TypeError; a throwing resolver forwards its error. |
| BaseControllers.BaseController.Emit | src/adapters/controllers/base/Base.controller.ts:79-109 | Headers as `WriteHeaders` writes them, then the status resolved from the result's application status. A resolved code is sent with the payload of the chosen shape. A throwing resolver leaves the headers written, status and body untouched, and returns its error. |
| BaseControllers.BaseController.ManageUseCaseTrace | src/adapters/controllers/base/Base.controller.ts:111-125 | Only a trace with a non-empty context is finished at `now` and registered. A rejected registration adds one "ManageUseCaseTraceError" log with the rejection's message and nothing else. Without a context nothing changes. |
| BaseControllers.BaseController.Dispatch | src/adapters/controllers/base/Base.controller.ts:182-225 | Headers are written exactly when a resolved result meets a trace. Status and body are set exactly when `Outcome` is `Sent`, with its code and the shape's payload; otherwise `next` is called once with the forwarded error. The trace is then handled as `ManageUseCaseTrace` states: a trace without a context keeps its finishing time, and the repository's behaviour is unchanged. |
| BaseControllers.BaseController.HandleResult | src/adapters/controllers/base/Base.controller.ts:182-195 | The whole of `Dispatch`'s effect with the whole result as payload: headers, status, body, `next` and trace. A rejection goes to `next(error)` with nothing emitted. |
| BaseControllers.BaseController.HandleResultDto | src/adapters/controllers/base/Base.controller.ts:197-210 | The same, with the result's DTO as the body. |
| BaseControllers.BaseController.HandleResultData | src/adapters/controllers/base/Base.controller.ts:212-225 | The same, with the DTO when `message` is truthy and its bare data otherwise. |
| AuthorizationGate.GetUnauthorized | src/infrastructure/middleware/authorization/jwt/index.ts:38-44 | The error is an `ApplicationError` in the middleware's context, with the given message and UNAUTHORIZED. |
| AuthorizationGate.Present | src/infrastructure/middleware/authorization/jwt/index.ts:21 | `if (!auth)`: a header is present exactly when it is defined and not the empty string. |
| AuthorizationGate.Decide | src/infrastructure/middleware/authorization/jwt/index.ts:16-36 | Whitelisted requests exactly are allowed untouched. A missing or empty header is refused. A session is attached exactly when the header splits into `TOKEN_PARTS` parts and the part at `TOKEN_POSITION_VALUE` verifies, and the session is that payload. Every refusal is the same `AuthorizationMiddleware` UNAUTHORIZED error. |
| AuthorizationGate.SchemeNeverChecked | src/infrastructure/middleware/authorization/jwt/index.ts:24-31 | Any whitespace-free first word, the empty one included, and any whitespace run give the same decision. That decision is the token's verification alone. |
| AuthorizationGate.AcceptedHeaderShape | src/infrastructure/middleware/authorization/jwt/index.ts:24-33 | An accepted header is exactly word, whitespace run, token. The attached session is the token's verified payload. |
| AuthorizationGate.OneWordRefused | src/infrastructure/middleware/authorization/jwt/index.ts:24-26 | A header without whitespace (a bare token) is refused. |
| AuthorizationGate.TrailingWhitespaceRefused | src/infrastructure/middleware/authorization/jwt/index.ts:24-26 | Whitespace after the token makes a third, empty part, so the header is refused. |
| AuthorizationGate.LeadingWhitespaceRefused | src/infrastructure/middleware/authorization/jwt/index.ts:24-26 | Whitespace before the scheme makes an empty first part and three parts, so the header is refused. |
| AuthorizationGate.Handle | src/infrastructure/middleware/authorization/jwt/index.ts:16-36 | `next` is called exactly once, with the refusal or with nothing. `req.session` is written only when a token verified, and then with its payload. |
| Text.FirstWhitespace | src/infrastructure/middleware/authorization/jwt/index.ts:24 | The index of the first whitespace character (or the length): no whitespace before it, whitespace at it. |
| Text.RunEnd | src/infrastructure/middleware/authorization/jwt/index.ts:24 | The end of the maximal whitespace run starting at `i`. |
| Text.Split | src/infrastructure/middleware/authorization/jwt/index.ts:24 | `split(/\s+/)` gives at least one part, and no part contains whitespace. |
| Text.Gaps | src/infrastructure/middleware/authorization/jwt/index.ts:24 | The separators `split` drops: one fewer than the parts, each a non-empty whitespace run. |
| Text.SplitWhitespaceFree | src/infrastructure/middleware/authorization/jwt/index.ts:24 | Text without whitespace splits into itself alone. |
| Text.SplitInnerPartsNonEmpty | src/infrastructure/middleware/authorization/jwt/index.ts:24 | Only the first and the last part can be empty. |
| Text.SplitGapsRoundTrip | src/infrastructure/middleware/authorization/jwt/index.ts:24 | Putting the dropped runs back between the parts rebuilds the text. |
| Text.SplitStep | src/infrastructure/middleware/authorization/jwt/index.ts:24 | A whitespace-free prefix followed by a whole run splits off as the first part and the first gap. |
| Text.InterleaveSplitRoundTrip | src/infrastructure/middleware/authorization/jwt/index.ts:24 | Text assembled from whitespace-free parts (inner ones non-empty) and whitespace runs splits back into exactly those parts and runs. |
| Text.SplitTwoParts | src/infrastructure/middleware/authorization/jwt/index.ts:24-25 | Two parts means the text is first part, one whitespace run, second part. |
| Text.SplitPair | src/infrastructure/middleware/authorization/jwt/index.ts:24-25 | Word, run, word always splits into exactly those two words. |
| Text.LowerChar | src/application/modules/users/dtos/User.dto.ts:28 | Upper-case ASCII letters map to their lower-case letter. Every other character is kept. No upper-case letter remains. |
| Text.ToLower | src/application/modules/users/dtos/User.dto.ts:28 | Same length, character by character `LowerChar`. |
| Text.ToLowerIdempotent | src/application/modules/users/dtos/User.dto.ts:28 | Lower-casing twice equals lower-casing once. |
| UserDtos.LowerEmail | src/application/modules/users/dtos/User.dto.ts:28 | `json?.email?.toLowerCase()`: undefined stays undefined, and a present email is lower-cased. |
| UserDtos.FromJson | src/application/modules/users/dtos/User.dto.ts:26-35 | The email is lower-cased and `passwordB64` becomes `password`. Names and gender are copied. `uid`, `maskedUid`, `phone` and `birthDate` are undefined. |
| UserDtos.FromMaskedUid | src/application/modules/users/dtos/User.dto.ts:37-42 | Only `maskedUid` is set. |
| UserDtos.FromDomain | src/application/modules/users/dtos/User.dto.ts:44-52 | Masked uid, email and names are carried over. Password and gender never are. |
| UserDtos.ToDomain | src/application/modules/users/dtos/User.dto.ts:72-86 | The DTO's names, email, gender and password, plus the given uid, masked uid, creation time and verification flag. |
| UserDtos.ToJson | src/application/modules/users/dtos/User.dto.ts:88-96 | The response JSON carries masked uid, email, names and gender, and never a password. |
| UserDtos.GetCredentials | src/application/modules/users/dtos/User.dto.ts:98-100 | The email unchanged, and the password as `passwordB64`. |
| UserDtos.RegistrationFields | src/application/modules/users/dtos/User.dto.ts:54-63 | `isValid` submits exactly the five fields first name, last name, email, password and gender, with the DTO's values. |
| UserDtos.LookupFields | src/application/modules/users/dtos/User.dto.ts:65-70 | `isValidToGet` submits only the masked uid. |
| UserDtos.JsonRoundTrip | src/application/modules/users/dtos/User.dto.ts:26-35 | Request to response JSON: the email comes back lower-cased, names and gender unchanged, password and masked uid absent. Reading that back changes only the dropped password. |
| UserDtos.EmailCaseInsensitive | src/application/modules/users/dtos/User.dto.ts:28 | Two request emails give the same DTO email exactly when they have the same length and agree at every position up to ASCII case. |
| UserDtos.DomainRoundTrip | src/application/modules/users/dtos/User.dto.ts:44-86 | DTO to domain and back keeps email and names, takes the given masked uid, and loses password and gender. |
| UserDtos.NoPasswordLeaks | src/application/modules/users/dtos/User.dto.ts:44-96 | Neither the request path nor the domain path to the response JSON carries a password. |
| RegisterUser.HashInput | src/application/modules/users/useCases/register/index.ts:103 | The worker's text is the email, then "-", then the password, rendered "undefined" when absent. |
| RegisterUser.BuiltUser | src/application/modules/users/useCases/register/index.ts:91-98 | The user to persist: no uid, unverified, the fresh masked uid and time, the DTO's email, names and gender, and the worker's hash of `HashInput` as password. |
| RegisterUser.Execution | src/application/modules/users/useCases/register/index.ts:27-51 | Collaborator calls happen in the order hash, lookup, persist, each at most once. A DTO the validator refuses returns its error with no call made. A valid DTO without an email throws the TypeError with no call made. With an email, the first failing check decides: an invalid email throws INVALID_EMAIL after the hash of `HashInput` alone; a known email returns INVALID_INPUT naming it after that hash and the lookup of that same email; an invalid password throws INVALID_PASSWORD after the same hash and lookup; otherwise the calls are that hash, that lookup and the persisting of the built user. SUCCESS/USER_WAS_CREATED is reported exactly when every step passed. Any lookup follows a valid email. Only an unknown email with a valid password reaches `register`; the stored user has the lower-cased email, no uid and is unverified. A known email returns INVALID_INPUT naming it. A falsy `register` returns INTERNAL_ERROR. |
| RegisterUser.SecondRegistrationRejected | src/application/modules/users/useCases/register/index.ts:37-38 | After a successful registration, a second request with the same email in any ASCII case that passes validation is refused with that email, and nothing is persisted. |
| RegisterUser.UseCaseResult.SetError | src/application/modules/users/useCases/register/index.ts:76-84 | The result holds the error message and status. |
| RegisterUser.UseCaseResult.SetMessage | src/application/modules/users/useCases/register/index.ts:45-48 | The result holds the message and status. |
| RegisterUser.UserRepository.GetByEmail | src/application/modules/users/useCases/register/index.ts:74 | The lookup finds exactly the known emails. |
| RegisterUser.UserRepository.Register | src/application/modules/users/useCases/register/index.ts:114 | `register` succeeds as the store decides, and a stored user's email becomes known. |
| RegisterUser.RegisterUserUseCase.Execute | src/application/modules/users/useCases/register/index.ts:27-51 | The completion and the collaborator calls are those of `Execution`. The repository learns the email only on success. |
| RegisterUser.RegisterUserUseCase.ValidateEmail | src/application/modules/users/useCases/register/index.ts:53-61 | Throws INVALID_INPUT/INVALID_EMAIL exactly when the email is absent or invalid. |
| RegisterUser.RegisterUserUseCase.ValidatePassword | src/application/modules/users/useCases/register/index.ts:63-71 | Throws INVALID_INPUT/INVALID_PASSWORD exactly when the password check fails. |
| RegisterUser.RegisterUserUseCase.UserExists | src/application/modules/users/useCases/register/index.ts:73-89 | One lookup. It answers true exactly for a known email and then records INVALID_INPUT with the duplicate-email message naming it. Otherwise the result is untouched. |
| RegisterUser.RegisterUserUseCase.BuildUser | src/application/modules/users/useCases/register/index.ts:91-98 | The user from `ToDomain` with no uid, the fresh masked uid and time, unverified, and the worker's hash as password. Without an email it reports the TypeError and makes no worker call. |
| RegisterUser.RegisterUserUseCase.EncryptPassword | src/application/modules/users/useCases/register/index.ts:100-111 | One worker task whose text is the email value, "-" and the stored password ("undefined" when absent), and the worker's answer as the hash. |
| RegisterUser.RegisterUserUseCase.RegisterUser | src/application/modules/users/useCases/register/index.ts:113-125 | One `register` call. A falsy answer records INTERNAL_ERROR/ERROR_CREATING_USER; a truthy one leaves the result untouched. |

## Left out

- Asynchrony is read as sequential steps. This covers the awaited promises,
  the worker thread that hashes the password, and the un-awaited
  `manageUseCaseTrace` promise, which may finish after the response is sent.
  Interleavings of concurrent requests on the shared status table are not
  modelled.
- The trace registration is modelled only through the promise it returns. A
  `register` that throws synchronously inside
  `Promise.resolve(...)` would escape `manageUseCaseTrace`; that case is not
  modelled. The `stack` field of the error log is not modelled either.
- `HttpStatusResolver.getCode` is a parameter that receives the mapping table
  and the application status and either answers a code or throws. Which
  statuses it maps, and its fallback, are not part of this model.
- `SetProduces`: the table is a map, so every status key is treated alike.
  The source's `statusMapping` is a plain object, so an inherited key such as
  `constructor` already reads as truthy and is never set. `RegisterAll`
  inherits this.
- `Result.toResultDto()` and the result's internals are not part of this
  model. A body names the result it was built from and the shape
  (`WholeResult`, `ResultDto`, `ResultDtoData`).
- The route's handlers, request/response describers and content type are
  opaque strings. The router and the API-doc generator only record that they
  were called. `this.constructor.name` is a constant. The abstract
  `initializeRoutes` and the service-container lookups in the constructor
  are left out.
- `new Date()` for the trace's finishing time is the parameter `now`.
  `GuidUtil.getV4WithoutDashes` and `DateTimeUtils.getISONow` are fixed
  values of the use case's collaborators.
- The framework's own `setHeader` checks on header names and values, and
  case-insensitive header names, are not modelled.
- `AuthorizationGate.Decide`: `ArrayUtil.allOrDefault` is a parameter.
  `ArrayUtil.getIndex` is plain indexing, because the list has exactly two
  parts at that point. `TypeParser.cast` is the identity. A `verifyJwt` that
  throws, caught by `TryWrapper`, is a verification that returns nothing.
  The cryptography of `Auth.provider.ts` is not part of this model. The
  header-shape lemmas (`SchemeNeverChecked`, `AcceptedHeaderShape`,
  `OneWordRefused`, `TrailingWhitespaceRefused`, `LeadingWhitespaceRefused`)
  assume that `ArrayUtil.allOrDefault` returns a split header unchanged.
- `Text.LowerChar`: does not model full Unicode case mapping, because only
  the ASCII letters A–Z are lower-cased. `Text.ToLower` inherits this.
- The `User` and `Email` domain classes are not part of this model. A user's
  email is its `Email` value as a string, and `Gender` is a string.
  `isValid`/`isValidToGet` are modelled as the dictionaries they submit; the
  validator itself is a parameter. Locale word keys become the `Word` names.
- A refusing validator is assumed to record its error in the result. A DTO
  that passes validation without an email crashes in `encryptPassword` on
  `(user.email as Email).value` before any worker call, which assumes the
  unseen `User` constructor leaves the email undefined.
- `RegisterUser.UserRepository.Register`: a store that accepts a user is
  assumed to know its email afterwards. Exceptions thrown by the
  repositories or the worker are not modelled; a store failure is a falsy
  `register` result. The worker's encryption key and iteration count from
  `AppSettings` are not modelled.
- The message tables (including `pt-br.local.ts`) are abstracted to message
  keys. The duplicate-email key carries its email parameter.
- The login and logout use cases, `Auth.provider.ts`, `Auth.controller.ts`,
  `Logger.ts` and the pong use case are not part of this model.
