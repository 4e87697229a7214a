# To-do API request pipeline, in Dafny

A model of the request pipeline of a small Express to-do API. Users sign up and sign in, which
yields a bearer token. With that token they list, create, update and delete their own to-do
items. The model covers the following parts.

- **Validation** (`Schema`, `TodoModels`, `UserModels`). The zod object schemas the routes
  declare are modelled as a total parse-and-coerce function over a JSON-like value.
  - Unknown keys are stripped.
  - `never().optional()` keys are refused.
  - Enums have defaults, which replace only an absent key.
  - Issues are collected in shape order.
  - E-mail and cuid checks are predicates on strings.
- **Middlewares** (`Middlewares`).
  - `notFound` settles the 404.
  - `errorHandler` chooses the final status: an explicit `statusCode` wins, an already-set
    non-200 status is kept, and otherwise the status is 500. It then writes the
    `{status: 'fail', message, stack}` envelope.
  - `validateRequestAsync` replaces params, body, query and headers in that order and stops at
    the first refusal with status 422.
- **Authentication** (`Auth`). The `authorization` header must start with the case-sensitive
  prefix `"Bearer "`. The rest is handed to the token verifier. A refused token is a 412 with
  the verifier's message. A verified token yields the principal `{id: u}`.
  - `validateAuth` answers 422 without such a header.
  - `getUserInfoOptional` goes on without a principal.
  - Signing and verifying are a `Codec` parameter.
- **Handlers**.
  - `TodoHandlers` implement ownership-checked find-then-mutate over a to-do table.
  - `UserHandlers` implement sign-up, sign-in and password change over a user table.
  - Each is specified by a function from the rows, the principal and the validated input to the
    new rows and the reply. The methods are proved to follow those functions.
  - The tables are classes over maps (`Store`). Store failures, such as a missing record or a
    uniqueness violation, are plain errors without a status, so they end as 500.
- **Routing** (`Routes`, `Server`).
  - The route tables fix each endpoint's stages in order: authentication, then one validation
    of exactly the parts the handler reads, then the handler.
  - `Server.Serve` runs a request through the matched route, or through the 404 fallback, and
    then the error handler. It is proved equal to the pure `Server.Respond`.

PUT bodies are parsed with the creation schema. So `name` is required, and the schema's default
resets an omitted `status` to `NotStarted` (`TodoHandlers.PutWithoutStatusResets`). An omitted
`description` keeps its stored value (`TodoHandlers.UpdateOutcome`). The following behaviours
are modelled as the code has them:
- A token without a `u` claim gives a principal without an id. Such a principal lists the todos
  whose owner is `""`.
- With such a principal, a DELETE or PUT on a missing todo passes the ownership test, and the
  store then answers with a 500.
- Such a principal may change the password of any registered address.

## Model

| member | source | states |
|---|---|---|
| Middlewares.NotFoundStatus | src/routes/middlewares.ts:6-8 | the status becomes 404 only when it is still 200; any other status is kept |
| Middlewares.NotFound | src/routes/middlewares.ts:5-11 | settles the status as above, sends nothing, and always forwards an error named by the resulting status's reason phrase |
| Middlewares.FinalStatus | src/routes/middlewares.ts:14-18 | an error's own status code wins; without one a 200 becomes 500 and any other status is kept |
| Middlewares.EnvelopeOf | src/routes/middlewares.ts:23-27 | status is "fail"; the message is the issue list for a validation error and the error's message otherwise; the stack is omitted exactly when the status is 404 or the environment is production |
| Middlewares.ErrorHandler | src/routes/middlewares.ts:13-28 | the response ends with the final status and the envelope for it |
| Middlewares.UnmatchedIsNotFound | src/routes/middlewares.ts:5-11 | a request nothing answered ends as 404 "Not Found" without a stack |
| Middlewares.RaisedEnvelope | src/routes/middlewares.ts:14-25 | an HTTP error raised without a message reaches the client as its status's reason phrase |
| Middlewares.Validate | src/routes/middlewares.ts:40-52 | unconfigured parts are never modified; a refused part stops the rest, and it and every later part keep their input; a part is only ever replaced by its own parse |
| Middlewares.ValidateIsFirstRefusal | src/routes/middlewares.ts:40-58 | validation agrees with "first refusal wins": it fails iff some step is refused, with that first step's issues; earlier parts hold their parse and the refused part and the later parts their input |
| Middlewares.ValidatedPartsParsed | src/routes/middlewares.ts:40-52 | when validation passes, every configured part holds its own parse |
| Middlewares.ValidatedConform | src/routes/middlewares.ts:40-52 | what passes validation conforms to every configured schema, which the handlers rely on |
| Middlewares.ValidateRequest | src/routes/middlewares.ts:37-60 | the request's parts become the validated ones; on a refusal the status becomes 422 and the validation error is forwarded, otherwise the status is unchanged |
| Auth.AuthorizationOf | src/routes/auth.ts:12 | the header is read iff the request carries `authorization` as a string |
| Auth.TokenOf | src/routes/auth.ts:17 | the token is the header with the "Bearer " prefix removed |
| Auth.GetUserFromJWT | src/routes/auth.ts:23-43 | succeeds iff the verifier accepts the token, with the principal's id equal to the `u` claim; a refusal is a 412 carrying the verifier's message |
| Auth.Authenticate | src/routes/auth.ts:10-55 | without a bearer header the mandatory variant is a 422 and the optional one goes on without a principal; with one, both verify the token as above |
| Auth.ModesAgreeOnBearer | src/routes/auth.ts:17-20 | once a bearer header is present the optional variant propagates a refusal exactly like the mandatory one |
| Auth.AuthenticationFailures | src/routes/auth.ts:45-54 | the only failures are 422 (no usable header, mandatory variant) and 412 (token refused), each exactly in its case |
| Auth.LowerCaseSchemeRefused | src/routes/auth.ts:8 | the prefix test is case-sensitive: "bearer ..." is no bearer header and the mandatory variant answers 422 |
| Auth.IssueToken | src/routes/auth.ts:57-67 | answers the signed token, or forwards the signer's failure without a status code |
| Auth.IssuedTokenAuthenticates | src/routes/auth.ts:23-36 | for a codec whose signed tokens verify back to their claims, "Bearer " + an issued token authenticates as the claims' user in both variants |
| Auth.ValidateAuth | src/routes/auth.ts:45-55 | sets `req.user` from a verified token, or forwards the error leaving `req.user` and the parts untouched |
| Auth.GetUserInfoOptional | src/routes/auth.ts:10-21 | as `validateAuth`, but without a bearer header it goes on with `req.user` unchanged |
| TodoHandlers.ListOutcome | src/routes/api/v1/todos/handlers.ts:7-21 | 403 without a principal; otherwise exactly the todos owned by `user.id \|\| ''` and, when a status is given, having it |
| TodoHandlers.CreateOutcome | src/routes/api/v1/todos/handlers.ts:23-37 | stores exactly one new todo with the body's fields, owned by the principal, leaving all other rows; 403 without a principal and a store error (500) without an id; failures leave the table unchanged |
| TodoHandlers.DeleteOutcome | src/routes/api/v1/todos/handlers.ts:39-62 | succeeds iff the principal has an id and owns the todo; then removes exactly that row and answers with it; otherwise the table is unchanged and the answer is 403, or the store's error when the ownership test passes on a missing row |
| TodoHandlers.UpdateOutcome | src/routes/api/v1/todos/handlers.ts:64-91 | succeeds iff the principal has an id and owns the todo; then overwrites name and status, keeps an omitted description, keeps id and owner, and changes no other row |
| TodoHandlers.OutcomesKeepTableKeyed | src/routes/api/v1/todos/handlers.ts:23-91 | every handler keeps each row stored under its own id |
| TodoHandlers.MissingAndForeignLookAlike | src/routes/api/v1/todos/handlers.ts:45-53 | a missing todo and another user's todo give the same 403 and leave the table alone, for delete and update |
| TodoHandlers.AnonymousMissingIsServerError | src/routes/api/v1/todos/handlers.ts:51-59 | a principal without an id passes the ownership test on a missing todo, and the store's "record not found" has no status |
| TodoHandlers.SecondDeleteForbidden | src/routes/api/v1/todos/handlers.ts:45-61 | after a successful delete, deleting the same id again is a 403 |
| TodoHandlers.CreatedIsListed | src/routes/api/v1/todos/handlers.ts:13-18 | a created todo is listed for its owner, both unfiltered and under its own status |
| TodoHandlers.ListedAreOwn | src/routes/api/v1/todos/handlers.ts:13-18 | a list never contains another owner's todo: every listed todo's owner is `user.id \|\| ''`, and the id itself when there is one |
| TodoHandlers.PutWithoutStatusResets | src/routes/api/v1/todos/handlers.ts:81-88 | an update whose body omits `status` sets the status to NotStarted |
| TodoHandlers.GetAll | src/routes/api/v1/todos/handlers.ts:7-21 | answers the list `ListOutcome` describes, without changing anything |
| TodoHandlers.CreateOne | src/routes/api/v1/todos/handlers.ts:23-37 | the table and the answer are those of `CreateOutcome` |
| TodoHandlers.DeleteOne | src/routes/api/v1/todos/handlers.ts:39-62 | the table and the answer are those of `DeleteOutcome` |
| TodoHandlers.UpdateOne | src/routes/api/v1/todos/handlers.ts:64-91 | the table and the answer are those of `UpdateOutcome` |
| UserHandlers.SignupOutcome | src/routes/api/v1/users/handlers.ts:7-29 | a registered address is a 409 leaving the table unchanged; otherwise exactly one user with the body's address and password is added and `{ok: true}` answered |
| UserHandlers.SignupKeepsUsersKeyed | src/routes/api/v1/users/handlers.ts:12-24 | sign-up keeps addresses and identifiers unique |
| UserHandlers.TokenFor | src/routes/api/v1/users/handlers.ts:46-52 | the answer is the token signed for `{u: user.id}`, or the signer's failure without a status |
| UserHandlers.SigninOutcome | src/routes/api/v1/users/handlers.ts:31-53 | an unknown address is a 401; a known one gets the token for its user |
| UserHandlers.SigninIgnoresPassword | src/routes/api/v1/users/handlers.ts:35-48 | a known address with a wrong password gets the same token as with the right one |
| UserHandlers.CheckedSigninOutcome | src/routes/api/v1/users/index.test.ts:189-203 | an unknown address or a wrong password is a 401; otherwise the token for the user |
| UserHandlers.CheckedSigninRefusesWrongPassword | src/routes/api/v1/users/index.test.ts:189-203 | with the check, a wrong password and an unknown address give the same 401 |
| UserHandlers.CheckedSigninAgreesOnRightPassword | src/routes/api/v1/users/index.test.ts:173-187 | with the right password the corrected sign-in answers what the written one does |
| UserHandlers.SigninTokenAuthenticates | src/routes/api/v1/users/handlers.ts:46-52 | for a codec whose tokens verify back to their claims, the token the written sign-in hands out authenticates as the signed-in user |
| UserHandlers.ChangePasswordOutcome | src/routes/api/v1/users/handlers.ts:55-76 | 400 without a principal; otherwise only the password of the record matching the principal's id and the body's address changes, and no match is a store error; failures leave the table unchanged |
| UserHandlers.AnonymousChangesAnyPassword | src/routes/api/v1/users/handlers.ts:63-67 | a principal without an id matches on the address alone |
| UserHandlers.Signup | src/routes/api/v1/users/handlers.ts:7-29 | the table and the answer are those of `SignupOutcome` |
| UserHandlers.Signin | src/routes/api/v1/users/handlers.ts:31-53 | answers `SigninOutcome`, changing nothing |
| UserHandlers.SigninChecked | src/routes/api/v1/users/handlers.ts:31-53 | answers `CheckedSigninOutcome`, changing nothing |
| UserHandlers.ChangePassword | src/routes/api/v1/users/handlers.ts:55-76 | the table and the answer are those of `ChangePasswordOutcome` |
| Schema.ParseField | src/routes/api/v1/todos/models.ts:6-12 | a refused value always has issues; a kept value is a string; a `never().optional()` key is accepted iff absent |
| Schema.ParseFieldIdempotent | src/routes/api/v1/todos/models.ts:6-12 | a field's parse parses again to itself |
| Schema.ParseIdempotent | src/routes/api/v1/todos/models.ts:5-13 | a parsed object parses again to itself |
| Schema.ParsedConforms | src/routes/api/v1/todos/models.ts:5-13 | a parsed object holds exactly the schema's keys, each its own parse |
| Schema.ConformingParsesToItself | src/routes/api/v1/todos/models.ts:5-13 | an object that conforms parses to itself |
| Schema.RefusedIffSomeKeyRefused | src/routes/api/v1/todos/models.ts:5-13 | an object is refused iff some declared key's value is refused, and every refused key's first issue is reported at that key's path |
| Schema.RequiredTextConforms | src/routes/api/v1/users/models.ts:5-6 | in a conforming object a required text key is present, a string, and passes its checks |
| Schema.ForbiddenKeyRefused | src/routes/api/v1/todos/models.ts:6 | a present `never()` key refuses the object with an issue at that key |
| TodoModels.StatusNamed | src/routes/api/v1/todos/models.ts:3 | exactly the three status names denote statuses, each its own |
| TodoModels.NewTodoOf | src/routes/api/v1/todos/models.ts:5-13 | the typed body carries the validated name, optional description and status |
| TodoModels.ParseNewTodo | src/routes/api/v1/todos/models.ts:5-13 | accepts exactly what the schema accepts, with the same issues |
| TodoModels.BodyRoundTrip | src/routes/api/v1/todos/models.ts:5-13 | every typed body conforms as a value, parses to itself and reads back to the same body |
| TodoModels.BodyConforms | src/routes/api/v1/todos/models.ts:5-13 | the canonical body of a typed todo passes every key of the schema unchanged |
| TodoModels.BodyKeys | src/routes/api/v1/todos/models.ts:5-13 | the canonical body holds only keys the schema declares |
| TodoModels.ParsedBodyKeys | src/routes/api/v1/todos/models.ts:5-13 | a parsed body conforms and holds only `name`, `description` and `status` |
| TodoModels.ParsedBodyIsCanonical | src/routes/api/v1/todos/models.ts:5-13 | a parsed body is the canonical value of its typed body |
| TodoModels.ForbiddenKeysRefused | src/routes/api/v1/todos/models.ts:6-11 | a body carrying `id`, `userId`, `createdAt` or `updatedAt` is refused with an issue at that key |
| TodoModels.NameRequired | src/routes/api/v1/todos/models.ts:7 | an accepted body has a string name |
| TodoModels.EmptyBodyRefused | src/routes/api/v1/todos/index.test.ts:223-235 | an empty body is refused with exactly one issue, at `name` |
| TodoModels.StatusDefaulted | src/routes/api/v1/todos/models.ts:12 | an absent status becomes NotStarted; a non-string or unknown one is refused |
| TodoModels.NameAndDescriptionKept | src/routes/api/v1/todos/models.ts:7-8 | an accepted body keeps the given name and description |
| TodoModels.CreateExample | src/routes/api/v1/todos/index.test.ts:151-167 | `{name: "test"}` parses to a NotStarted todo named "test" without a description |
| TodoModels.StatusFilterOf | src/routes/api/v1/todos/models.ts:16-18 | the filter is present iff the query names a status, and it is that status |
| TodoModels.QueryAccepted | src/routes/api/v1/todos/models.ts:16-18 | a query is accepted iff it is an object whose status, if any, is one of the three names |
| TodoModels.IdOf | src/routes/api/v1/todos/models.ts:21-23 | the validated id is the parameter's string and satisfies the cuid shape |
| TodoModels.ParamsAccepted | src/routes/api/v1/todos/models.ts:21-23 | the parameters are accepted iff `id` is a string of cuid shape |
| UserModels.CredentialsOf | src/routes/api/v1/users/models.ts:3-9 | validated credentials are a well-formed address and a 64-character password |
| UserModels.ParseCredentials | src/routes/api/v1/users/models.ts:3-9 | accepts exactly what the schema accepts, with the same issues |
| UserModels.UserAccepted | src/routes/api/v1/users/models.ts:3-9 | a body is accepted iff it has no `id`, `createdAt` or `updatedAt`, a well-formed address and a 64-character password |
| UserModels.ShortPasswordRefused | src/routes/api/v1/users/index.test.ts:155-169 | the password "3213213" is refused, with the exact-length issue |
| UserModels.MalformedEmailRefused | src/routes/api/v1/users/models.ts:5 | an ill-formed address is refused with an e-mail issue |
| UserModels.WrongEmailRefused | src/routes/api/v1/users/index.test.ts:139-153 | "wrong.email.com@" is refused |
| UserModels.CredentialsRequired | src/routes/api/v1/users/models.ts:5-6 | a body without an address or without a password is refused |
| Formats.TrailingAtRejected | src/routes/api/v1/users/models.ts:5 | an address ending in "@" with no other "@" is never well formed |
| Store.TodoTable.FindUnique | src/routes/api/v1/todos/handlers.ts:45-49 | answers the row under the id, if any |
| Store.TodoTable.FindMany | src/routes/api/v1/todos/handlers.ts:13-18 | answers the rows with the owner and, if given, the status |
| Store.TodoTable.Create | src/routes/api/v1/todos/handlers.ts:29-34 | inserts the row, or fails without an owner or on a taken id, leaving the rows unchanged |
| Store.TodoTable.Delete | src/routes/api/v1/todos/handlers.ts:55-59 | removes and answers the row, or fails with "record not found" |
| Store.TodoTable.Update | src/routes/api/v1/todos/handlers.ts:81-88 | overwrites the body's keys in the row, or fails with "record not found" |
| Store.UserTable.FindUnique | src/routes/api/v1/users/handlers.ts:12-16 | answers the user with the address, if any |
| Store.UserTable.Create | src/routes/api/v1/users/handlers.ts:22-24 | inserts the user, or fails on a taken address or id, leaving the table unchanged |
| Store.UserTable.UpdatePassword | src/routes/api/v1/users/handlers.ts:63-71 | sets the password of the user matching id and address, or fails with "record not found" |
| Routes.TodoRoutesAuthenticateFirst | src/routes/api/v1/todos/index.ts:10-36 | every to-do route runs `validateAuth` before validation and the handler |
| Routes.UserRoutesValidateFirst | src/routes/api/v1/users/index.ts:8-18 | sign-up and sign-in validate the body with the user schema first, with no authentication |
| Routes.Bind | src/routes/api/v1/todos/index.ts:24-36 | a matched path has the pattern's length, its literal segments, and a non-empty segment for each parameter |
| Routes.Match | src/routes/api/v1/index.ts:13-14 | the first route registered for the verb whose pattern matches the path, or none iff no route matches |
| Routes.ChangePasswordUnrouted | src/routes/api/v1/users/index.ts:4-18 | no route of the registered table matches a PUT to "changePassword" |
| Routes.SigninRouted | src/routes/api/v1/users/index.ts:14-18 | POST "/signin" reaches the written sign-in in the registered table and the checked sign-in in the corrected table, with no path parameters |
| Routes.ChangePasswordRouted | src/routes/api/v1/users/index.test.ts:238-254 | in the corrected table a PUT to "changePassword" reaches the password change, with no path parameters |
| Routes.MatchedWellFormed | src/routes/api/v1/index.ts:13-14 | the matched route is one of the table's and runs its stages in the required order |
| Routes.UserRoutesSkipTodos | src/routes/api/v1/index.ts:13-14 | the account routes, mounted first, never match a path under "/todos" |
| Server.Authorize | src/routes/api/v1/todos/index.ts:12 | the authentication stages fail iff one of them fails, and a new principal comes from one of them |
| Server.Guard | src/routes/api/v1/todos/index.ts:10-36 | a request that reaches the handler conforms to the handler's schemas; the only status set before it is validation's 422 |
| Server.HandlerOutcome | src/routes/api/v1/todos/index.ts:10-36 | a failing handler changes no table; to-do handlers never touch users and account handlers never touch todos |
| Server.SigninRoutePasses | src/routes/api/v1/users/index.ts:14-18 | on the written and the checked sign-in route an accepted body reaches the handler with its credentials and the caller's principal |
| Server.SigninRouteIgnoresPassword | src/routes/api/v1/users/handlers.ts:31-53 | the written sign-in route answers a registered address with a 200 carrying its user's token, whatever the password, changing nothing |
| Server.RegisteredSigninIgnoresPassword | src/routes/api/v1/users/handlers.ts:35-48 | with the registered routes, POST "/signin" gives a registered address its token whatever password comes with it |
| Server.CheckedSigninRouteRefuses | src/routes/api/v1/users/index.test.ts:189-203 | the checked sign-in route answers a registered address with the wrong password with a 401 that changes nothing |
| Server.CorrectedSigninRefusesWrongPassword | src/routes/api/v1/users/index.test.ts:189-203 | in the corrected table, POST "/signin" with a registered address and the wrong password is a 401 that changes nothing |
| Server.Failed | src/routes/middlewares.ts:13-28 | an error answer keeps both tables and carries the error handler's status |
| Server.Respond | src/app.ts:26-29 | for any route table, an error answer leaves both tables as they were |
| Server.Routed | src/routes/api/v1/todos/index.ts:10-36 | on a matched route, an error answer leaves both tables as they were |
| Server.RoutedOutcomeShape | src/routes/middlewares.ts:13-28 | on a matched route a data answer is a 200 and a failure is a "fail" envelope |
| Server.MissingHeaderIsUnprocessable | src/routes/api/v1/todos/index.test.ts:237-250 | on any to-do route a request without a bearer header is a 422 whose message is that status's reason phrase ("Unprocessable Entity"), whatever its body, and changes nothing |
| Server.RefusedTokenIsPreconditionFailed | src/routes/api/v1/todos/index.test.ts:252-266 | on any to-do route a refused token is a 412 with the verifier's message, whatever the body, and changes nothing |
| Server.ChangePasswordIsNotFound | src/routes/api/v1/users/index.ts:4-18 | with the registered routes, a PUT to "changePassword" is a 404 "Not Found" without a stack and changes nothing |
| Server.RoutedChangePasswordPasses | src/routes/api/v1/users/index.test.ts:238-254 | in the corrected table, a verified token and an accepted body pass the middlewares with the token's principal and the body's credentials |
| Server.ChangePasswordRouteSucceeds | src/routes/api/v1/users/handlers.ts:55-76 | on the password-change route, the owner's request sets exactly that user's password and answers `{ok: true}` |
| Server.RoutedChangePasswordSucceeds | src/routes/api/v1/users/index.test.ts:238-254 | in the corrected table the owner's request is a 200 `{ok: true}` that changes only that user's password and no todo |
| Server.ChangePasswordRouteValidatesBody | src/routes/api/v1/users/index.test.ts:290-304 | on the password-change route, without a token, a refused body is a 422 that changes nothing |
| Server.RoutedChangePasswordValidatesBody | src/routes/api/v1/users/index.test.ts:290-304 | in the corrected table a body the user schema refuses is a 422 even without a token, and changes nothing |
| Server.RefusedAccountBodyIsUnprocessable | src/routes/api/v1/users/index.ts:8-18 | on sign-up and sign-in a refused body is a 422 listing its issues, before the user table is read |
| Server.OnlySuccessChangesStores | src/app.ts:26-29 | for any route table, a data answer is always a 200; a failure is a "fail" envelope and leaves both tables as they were |
| Server.RunAuthentication | src/routes/api/v1/todos/index.ts:33 | runs the route's authentication middlewares in order and stops at the first error, as `Authorize` describes |
| Server.Dispatch | src/routes/api/v1/todos/index.ts:35 | the tables and the answer are the outcome of the handler the route names: the written sign-in for `Signin`, the checked one for `CheckedSignin` |
| Server.Serve | src/app.ts:26-29 | for any route table, one request ends with the tables, the status and the body that `Respond` gives |
| Server.RunRoute | src/routes/api/v1/todos/index.ts:10-36 | a matched route's middlewares and handler end with the tables, the status and the body that `Routed` gives |

## Left out

- Token signing and verification are the `Auth.Codec` parameter, not the `jsonwebtoken` library
  or its key (read from the environment). The round trip "an issued token verifies back to its
  claims" is a hypothesis (`Auth.RoundTrips`) of the lemmas that use it, not a proved fact.
- SHA-256 password digests are not modelled. Passwords are the 64-character strings the schema
  admits.
- `Formats.IsEmail` approximates zod's e-mail regular expression. The local part is ASCII
  letters, digits, `_`, `+`, `-` and `.`, with no leading, trailing or doubled dot, as in zod's
  `([A-Z0-9_+-]+\.?)*[A-Z0-9_+-]`. The domain is dot-separated labels of letters, digits and
  hyphens, each starting with a letter or digit. The last label is at least two letters.
  `Formats.IsCuid` is zod's `/^c[^\s-]{8,}$/i`.
- UserModels.CredentialsOf: the 64-character password length counts characters (code points),
  while zod's `.length(64)` counts UTF-16 code units. A password holding a character outside the
  Basic Multilingual Plane is judged differently. The same holds for the cuid's `{8,}` in
  `TodoModels.IdOf` and for every length check of `Schema.ParseField`.
- Store.TodoTable.Create: the to-do row's foreign key to its user is not modelled. The model
  stores a todo whose owner id names no registered user (including the empty id). The database
  refuses that insert, and the refusal, a plain store error, would end as a 500.
- Zod issues keep their path and code. The `expected`/`received` fields and the human-readable
  message text are left out.
- The `asyncHandler` promise wiring, `next()` and Express's middleware chaining are replaced by
  the straight-line `Server.Serve`. Concurrency between requests is not modelled.
- `console.error` logging and `morgan`, `helmet` and `compression` are not modelled. Reading
  `NODE_ENV` becomes the `production` flag.
- The Prisma engine is replaced by in-memory tables (`Store`). Generated identifiers are a
  `newId` parameter. `createdAt` and `updatedAt` are not stored. The order of `findMany`
  results is not modelled: a list is a set. The texts of store errors are placeholders.
- The `httpErrors` module is not part of this model. Its classes are taken to carry the
  status their names give, with the reason phrase as their default message.
- `HttpErrors.ReasonPhrase` knows only the codes this API produces.
- Error stacks are not modelled: every error's stack is the empty string. The model only
  decides whether a stack is sent.
- The `/test` route, the `/api` and `/v1` mount prefixes and the server bootstrap are not
  modelled. Paths are taken as segments relative to `/api/v1`. Express's trailing-slash,
  case-insensitive and URI-decoding matching is left out.
- JSON numbers are integers. The JSON parser and the content-type handling are not modelled.
- `Middlewares.ValidateRequest`: a non-validation failure inside a schema is not modelled,
  because zod's parse only throws validation errors. So every forwarded error sets 422.
- The headers validator with passthrough is modelled, but no route configures it.

## Findings

| source | as written | input that shows it | evidently intended | confidence | as-written member | corrected member |
|---|---|---|---|---|---|---|
| src/routes/api/v1/users/handlers.ts:35-48 | sign-in looks the user up by address and issues a token without comparing the submitted password digest with the stored one | a registered address with any other 64-character password digest | answer 401 Unauthorized, as the wrong-credentials test at src/routes/api/v1/users/index.test.ts:189-203 expects | high; not executed | Server.RegisteredSigninIgnoresPassword | Server.CorrectedSigninRefusesWrongPassword |
| src/routes/api/v1/users/index.ts:4-18 | the users router imports and registers only `signup` and `signin`; `changePassword` is never routed, so a PUT to "/changePassword" falls through to the 404 handler | the owner's request at src/routes/api/v1/users/index.test.ts:239-254 | registered on the users router behind the optional authentication and the user schema, answering 200 `{ok: true}` for the owner and 422 for a refused body | medium; not executed | Server.ChangePasswordIsNotFound | Server.RoutedChangePasswordSucceeds |

The request pipeline (`Server.Serve` and `Server.Respond`) takes the route table as a parameter.
`Routes.ApiRoutes` is the table as registered. Its sign-in route runs the written handler
(`UserHandlers.SigninOutcome`, `UserHandlers.Signin`). `Routes.CorrectedApi` is the table with
both corrections:
- its sign-in route runs the checked handler (`UserHandlers.CheckedSigninOutcome`,
  `UserHandlers.SigninChecked`);
- the password change is registered.

The sign-in half of each finding is also stated on the handler functions. There,
`UserHandlers.SigninIgnoresPassword` is the as-written member and
`UserHandlers.CheckedSigninRefusesWrongPassword` the corrected one. The lemmas
`Server.CorrectedSigninRefusesWrongPassword`, `Server.RoutedChangePasswordSucceeds` and
`Server.RoutedChangePasswordValidatesBody` are about the corrected table.
Registering the route does not explain every expectation of its tests. The test at
src/routes/api/v1/users/index.test.ts:256-271 expects a 403 when a user names another user's address.
In the handler, that case is a store "record not found" without a status, so it ends as a 500.
