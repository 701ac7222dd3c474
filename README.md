# Book manager: a Dafny model of its core

The book manager pairs an Express backend with a React client. The backend
keeps an in-memory list of book records behind `/books`. It issues signed
bearer tokens at `/login` and checks them in an authentication middleware
(the "gate"). In the browser client, the request interceptor sends whatever is
stored under "book-manager-token" in `localStorage` on every API call, and the
client ends the session when the server answers 401. The login page stores
the issued token under a different key (see "## Findings").

This project models:

- **the book store** (`BookRoutes`): the module-level `books` array as a
  class with a `seq` field, starting from the two seeded records. The class
  has the four handlers (list, create, update, delete) and a router that puts
  every route except create behind the gate;
- **the gate** (`AuthMiddleware`): token extraction with JavaScript's
  `split(" ")`, and the decision between 401, 403, 500 and `next()`. The
  `Exchange` class carries the decision out on `req.user`, the response and
  the `next` call;
- **the envelopes and errors** (`ErrorHandler`): the success and error
  response builders and their defaults, the four error classes, and the
  status and message rules of the top-level error handler;
- **login** (`LoginRoute`): the exact match on username and password against
  a user list, then a token or 401;
- **the client session** (`ClientAuth`, `ApiClient`): `isAuthenticated`,
  `logout`, the request interceptor that adds the bearer header, and the
  response interceptor that ends the session on 401;
- **end-to-end properties** (`Flows`): what happens to a token from the
  client to the server and back.

Modelling choices:

- JSON values are the datatype `Json.Value`. A JavaScript plain object is a
  `map<string, Value>`. Object spread `{ ...a, ...b }` is map union with
  `b` winning.
- Whatever the program takes from outside becomes a parameter:
  - generated ids (`uuidv4()`);
  - the clock (`new Date().toISOString()`, the parameter `now`);
  - `process.env.NODE_ENV`;
  - the user list;
  - `jwt.sign`, an oracle `SignRequest -> string`;
  - `jwt.verify`, an oracle giving `Decoded(payload)`, `VerifyError(name)`,
    or `Thrown` (an exception escaping the gate's `try`).
- Login only searches the user list. `LoginRoute.Login` is a function of
  that list, so it cannot change it.

The code does less than the REST contract usually documented for such a
service, and the model follows the code:

- the book routes do no field validation, no duplicate (title, author)
  check, no year-range check and no audit stamps;
- they answer with bare records, not success envelopes;
- a body `id` overrides the generated one on create and replaces the stored
  one on update;
- there is no get-by-id route;
- delete answers 204 even when nothing matched;
- create is not behind the gate;
- login does no length checks and answers `{ token }` only.

## Model

| member | source | states |
|---|---|---|
| `ErrorHandler.CreateErrorResponse` | backend/src/utils/errorHandler.js:40-50 | the envelope reads back as `success: false` with exactly the given message, code, details and timestamp, and is never mistaken for a success envelope |
| `ErrorHandler.ErrorResponseDefaults` | backend/src/utils/errorHandler.js:40 | omitted arguments give status code 500 and `null` details |
| `ErrorHandler.CreateSuccessResponse` | backend/src/utils/errorHandler.js:53-60 | the envelope reads back as `success: true` with the data passed through unchanged, and is never mistaken for an error envelope |
| `ErrorHandler.SuccessResponseDefaults` | backend/src/utils/errorHandler.js:53 | an omitted message is 'Success' |
| `ErrorHandler.NewValidationError` | backend/src/utils/errorHandler.js:92-99 | name ValidationError, code 400, keeps the given details (default `null`) |
| `ErrorHandler.NewAuthenticationError` | backend/src/utils/errorHandler.js:102-108 | name AuthenticationError, code 401, default message 'Authentication failed', no details |
| `ErrorHandler.NewAuthorizationError` | backend/src/utils/errorHandler.js:111-117 | name AuthorizationError, code 403, default message 'Access denied', no details |
| `ErrorHandler.NewNotFoundError` | backend/src/utils/errorHandler.js:120-126 | name NotFoundError, code 404, default message 'Resource not found', no details |
| `ErrorHandler.StatusOf` | backend/src/utils/errorHandler.js:79-80 | `err.statusCode` when present and non-zero, else 500; never 0 |
| `ErrorHandler.HandleError` | backend/src/utils/errorHandler.js:63-82 | the HTTP status equals the envelope's `statusCode`; in development the message is `err.message` and the details are the stack, or `null` when the error has no stack; otherwise 'Internal server error' and `null` |
| `ErrorHandler.ErrorClassStatus` | backend/src/utils/errorHandler.js:92-126 | each error class reaches the caller with its own code (400, 401, 403, 404) in every environment, and a ValidationError's details never change the answer |
| `ErrorHandler.ProductionHidesError` | backend/src/utils/errorHandler.js:75-77 | outside development, two errors with the same status get identical answers, 4xx included |
| `ErrorHandler.DefaultMessages` | backend/src/utils/errorHandler.js:101-126 | in development the default messages 'Authentication failed', 'Access denied' and 'Resource not found' are what the caller reads |
| `AuthMiddleware.Split` | backend/src/authMiddleware.js:19 | `split` on one character: at least one piece, and no piece contains the separator |
| `AuthMiddleware.JoinSplit` | backend/src/authMiddleware.js:19 | joining the pieces with the separator gives back the original header |
| `AuthMiddleware.TokenOfShape` | backend/src/authMiddleware.js:19 | for a header `scheme token` plus nothing or a space-led rest, the extracted token is exactly the second word, whatever the scheme |
| `AuthMiddleware.TokenOf` | backend/src/authMiddleware.js:19 | the second space-separated segment exists exactly when the header contains a space, and holds no space itself |
| `AuthMiddleware.FailureMessage` | backend/src/authMiddleware.js:41-43 | 'Token has expired' exactly when the error name is TokenExpiredError, otherwise 'Invalid token' |
| `AuthMiddleware.Decide` | backend/src/authMiddleware.js:4-70 | every refusal is a well-formed error envelope whose code equals the HTTP status, one of 401, 403 and 500; the request continues exactly when a non-empty token verifies, with the decoded payload as the user |
| `AuthMiddleware.MissingHeader` | backend/src/authMiddleware.js:8-17 | an absent or empty header gives 401 'Authorization header is required' |
| `AuthMiddleware.HeaderWithoutToken` | backend/src/authMiddleware.js:19-30 | a header with no space (such as "Bearer" alone) gives 401 'Token is required' |
| `AuthMiddleware.EmptyToken` | backend/src/authMiddleware.js:19-30 | an empty second segment ("Bearer ", "Bearer  x") gives 401 'Token is required' |
| `AuthMiddleware.TokenRejected` | backend/src/authMiddleware.js:32-48 | a verify failure gives 403, message chosen by the error name, details `{ tokenError: name }` |
| `AuthMiddleware.TokenAccepted` | backend/src/authMiddleware.js:50-56 | a verified token lets the request continue with the decoded payload |
| `AuthMiddleware.GateThrows` | backend/src/authMiddleware.js:59-69 | an exception inside the gate gives 500 'Authentication service error' |
| `AuthMiddleware.SchemeIgnored` | backend/src/authMiddleware.js:19 | any two scheme words before the first space give the same decision |
| `AuthMiddleware.Authenticate` | backend/src/authMiddleware.js:14-56 | a refusal writes the response and neither sets `req.user` nor calls `next`; success sets `req.user` and calls `next` once; a fresh request ends with exactly one of the two |
| `Json.Spread` | backend/src/routes/books.js:11-19 | object spread `{ ...a, ...b }`: the keys of both objects; a key in `b` takes `b`'s value, any other keeps `a`'s |
| `BookRoutes.NewBook` | backend/src/routes/books.js:11 | the new record has every body field; its `id` is the generated one only when the body has none |
| `BookRoutes.Merge` | backend/src/routes/books.js:19 | body fields win, `id` included; fields absent from the body keep their old values; no field is lost |
| `BookRoutes.FindIndex` | backend/src/routes/books.js:17 | -1 exactly when no record has the id; otherwise the first index whose record has it |
| `BookRoutes.Without` | backend/src/routes/books.js:27 | a record survives exactly when it was stored and does not have the id; never longer |
| `BookRoutes.WithoutAppend` | backend/src/routes/books.js:27 | filtering distributes over concatenation, so the survivors keep their relative order |
| `BookRoutes.WithoutNothing` | backend/src/routes/books.js:27 | deleting an id no record has leaves the collection unchanged |
| `BookRoutes.WithoutIdempotent` | backend/src/routes/books.js:27 | deleting twice equals deleting once |
| `BookRoutes.CreateThenDelete` | backend/src/routes/books.js:10-29 | creating a record with a fresh generated id and deleting that id restores the collection exactly |
| `BookRoutes.Guarded` | backend/src/routes/books.js:8-26 | list, update and delete are the routes mounted with `authMiddleware`; create is not |
| `BookRoutes.BookStore.constructor` | backend/src/data/books.js:3-6 | the collection starts as exactly the two seeded records |
| `BookRoutes.BookStore.List` | backend/src/routes/books.js:8 | answers 200 with every stored record, in stored order, and changes nothing |
| `BookRoutes.BookStore.Create` | backend/src/routes/books.js:10-14 | appends exactly one record at the end, every earlier one unchanged in place; answers 201 with that record |
| `BookRoutes.BookStore.Update` | backend/src/routes/books.js:16-24 | with a match, only the first matching index is replaced by the merge, the length is kept, and the answer is the merged record; without one, 404 and no change |
| `BookRoutes.BookStore.Delete` | backend/src/routes/books.js:26-29 | the collection becomes the filter of the old one; always 204 |
| `BookRoutes.BookStore.Handle` | backend/src/routes/books.js:8-29 | list, update and delete run behind the gate and, when it refuses, answer with its response and change nothing; create runs whatever the header |
| `LoginRoute.FindUser` | backend/src/routes/auth.js:9 | finds a user iff some user matches both username and password exactly, and the one found is such a user |
| `LoginRoute.Login` | backend/src/routes/auth.js:7-17 | 200 iff some user matches both fields; then `{ token }` signed over `{ username }` alone with secret 'secret123' and expiry '1h'; otherwise 401 `{ message: "Invalid credentials" }` |
| `LoginRoute.FailureRevealsNothing` | backend/src/routes/auth.js:14-16 | every failing login gets the same answer, whichever field was wrong |
| `LoginRoute.KnownUserLogsIn` | backend/src/routes/auth.js:9-13 | a listed user who submits their own credentials gets a token over their username |
| `ClientAuth.Authenticated` | frontend/src/utils/auth.js:1-4 | true iff a non-empty value is stored under "book-manager-token" |
| `ClientAuth.Browser.IsAuthenticated` | frontend/src/utils/auth.js:1-4 | returns `Authenticated` of the storage and changes nothing |
| `ClientAuth.LoggedOut` | frontend/src/utils/auth.js:6-9 | removes only the token key, every other key keeps its value, the location is "/", and the session is no longer authenticated |
| `ClientAuth.LogoutIdempotent` | frontend/src/utils/auth.js:7 | logging out twice leaves the same state as logging out once |
| `ClientAuth.Browser.Logout` | frontend/src/utils/auth.js:6-9 | the browser's storage and location become `LoggedOut` of the old ones |
| `ClientAuth.StoreLoginTokenAsWritten` | frontend/src/pages/Login.jsx:17 | the login page's write touches only the key "token" |
| `ClientAuth.AsWrittenLoginDoesNotAuthenticate` | frontend/src/pages/Login.jsx:17 | that write never changes whether the session is authenticated; from empty storage it stays logged out |
| `ClientAuth.Browser.SaveLoginTokenAsWritten` | frontend/src/pages/Login.jsx:17 | the browser's storage becomes `StoreLoginTokenAsWritten` of the old one |
| `ClientAuth.StoreLoginToken` | frontend/src/pages/Login.jsx:17 | the corrected write stores the token under "book-manager-token" and touches nothing else |
| `ClientAuth.StoredLoginAuthenticates` | frontend/src/pages/Login.jsx:17 | after the corrected write of a non-empty token the session is authenticated |
| `ClientAuth.Browser.SaveLoginToken` | frontend/src/pages/Login.jsx:17 | the browser's storage becomes `StoreLoginToken` of the old one |
| `ApiClient.WithBearer` | frontend/src/services/api.js:5-9 | with a stored non-empty token, `Authorization` is "Bearer " + token; with none, the headers are unchanged |
| `ApiClient.OnRequest` | frontend/src/services/api.js:5-9 | the same config object is returned, its headers become `WithBearer` of the old ones, and storage is only read |
| `ApiClient.OnResponse` | frontend/src/services/api.js:13 | a successful response passes through unchanged |
| `ApiClient.AfterError` | frontend/src/services/api.js:14-21 | a 401 answer ends the session as logout does; any other error, 403 included, or a missing response changes nothing |
| `ApiClient.OnResponseError` | frontend/src/services/api.js:14-21 | the browser state becomes `AfterError` of the old one and the same error is rejected |
| `Flows.ExpiredTokenIsKept` | frontend/src/services/api.js:15-19 | an expired stored token gets 403 at the gate, the client keeps it, and the session stays authenticated |
| `Flows.IssuedTokenIsAdmitted` | backend/src/routes/auth.js:12-13 | a token from a successful login, stored under the reader's key and verified under the shared secret, is sent as "Bearer " + token and admitted with a user carrying the username that logged in |
| `Flows.AsWrittenLoginIsRefused` | frontend/src/pages/Login.jsx:17 | after the login page's write, from storage without a token, the next request has no Authorization header, the gate answers 401, and the client goes back to "/" |

## Findings

| source | as written | input that shows it | evidently intended | confidence | as-written member | corrected member |
|---|---|---|---|---|---|---|
| frontend/src/pages/Login.jsx:17 | stores the issued token under the key "token" | any successful login from storage without "book-manager-token": `isAuthenticated()` stays false, so the navigation to `/dashboard` (Login.jsx:18) is redirected by `ProtectedRoute` (App.jsx:9) and the user lands back on the login page; a guarded request sent from that state carries no Authorization header and the gate answers 401 | store it under "book-manager-token", the key `isAuthenticated`, `logout` and both interceptors use | high (not executed) | `ClientAuth.StoreLoginTokenAsWritten` | `ClientAuth.StoreLoginToken` |

Relatedly, an expired token gets 403 from the gate, but the client only
clears its storage on 401. `Flows.ExpiredTokenIsKept` proves that such a
session stays "authenticated" on the client and keeps sending the expired
token. The server separates a missing credential (401) from a bad token (403) on
purpose, so the model records this as a property, not as a defect.

## Left out

- Logging (`logger.*`, `console`, `JSON.stringify`): output only, not modelled.
- Timestamps, `uuidv4()`, `process.env.NODE_ENV`: taken as parameters.
- The user list `backend/src/data/users`: that file is not part of this model, so the list is a parameter of `LoginRoute.Login`.
- `jsonwebtoken` signing, signature checks and expiry clocks: `jwt.sign` and `jwt.verify` are oracles. The flow lemmas state what they need of `verify` as a premise.
- `asyncHandler`: Promise plumbing.
- The React components (`App.jsx`, `Dashboard.jsx`, `BookTable.jsx`, and all of `Login.jsx` except its storage write), which are rendering and hook state.
- `backend/index.js`: Express and CORS wiring and `app.listen`. Only the mount paths show up, as the names of the routes.
- Real `localStorage`, `window.location` and axios: modelled as a map, a string and the two interceptor functions.
- Concurrency: requests are handled one at a time, each as one call on the store.
- JSON details: non-integer numbers, property order in serialised objects, and non-object request bodies (a JSON array spread into a record) are not modelled.
- `res.sendStatus`' status-text body: modelled as `NoBody`. The 404 on update and the 204 on delete keep their status codes.
- `BookRoutes.BookStore.Handle`: the gate's `req.user` is not threaded into the book handlers, which never read it. `AuthMiddleware.Authenticate` models `req.user`.
- `AuthMiddleware.Decide`: the only exception it models is the one reported by the verify oracle (`Thrown`). Other throws, such as from the logger, are not modelled. A throw inside the `try` before `req.user = user` (backend/src/authMiddleware.js:50) would give the same 500 answer. A throw from `logger.info` on line 51 would give that 500 with `req.user` already set. A throw from `logger.error` in the `catch` (line 60) escapes the middleware.
- `ErrorHandler.StatusOf`: `statusCode` is an integer or absent. Its JavaScript truthiness for `NaN`, strings and other non-numbers is not modelled.
