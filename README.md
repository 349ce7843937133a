# mongodb-rest: route setup and the insert action, in Dafny

mongodb-rest exposes a MongoDB-compatible document store over REST. This
project models the two pieces of it that hold sequential logic of their own:

- **Route setup** (`lib/routes.js`): how each route URL is built from the URL
  prefix and the endpoint-root mode (`Prefixed`, `DbParam`, `UrlPrefix`), the
  six route bindings registered on the application (`RouteTable`, `Mount`, on
  an `App` class whose route list the setup extends, after the routes of the
  authentication module when it is configured), the pre-route pipeline
  that calls every registered check in order and stops at the first falsy
  result (`Before`), and the route handler that calls an action only when all
  checks pass, handing it the `{config, dbConfig, utils, logger}` bundle
  (`Action`).
- **The insert action** (`lib/actions/post-insert.js`): an imperative handler
  (`InsertAction.Handle`) over a `Response` object, proved against a
  specification function (`InsertAction.PlanFor`) that gives, for a request
  and a store, the status set, the JSON body written and the store calls made.

The document store is an oracle (`InsertAction.Store`): three functions that
say what `connect`, `db.collection` and `collection.insert` report back. The
handler records each call it makes on the store, so the model can state which
calls happen and which never do. The pre-route checks are values of type
`Routes.Check`: a name plus a function from the request and the
configuration to a returned value (read for its JavaScript truthiness) and
the calls the check makes on the response. The helpers that compute
`isDbEndpoint`, `dbConfig` and `utils` from the configuration are not part of
this model; their results are parameters of `Mount`.

Files: `js.dfy` (JavaScript values and truthiness), `http.dfy` (request,
response object and response calls), `settings.dfy` (configuration and the
tools bundle), `post_insert.dfy` (module `InsertAction`), `routes.dfy`
(module `Routes`).

Where the documented behaviour of the system and the code differ, the model follows
the code:

- The insert action skips the store only when `request.body` is falsy. An
  empty array or an empty object is truthy in JavaScript, so such a body goes
  on to connect. An empty array then inserts `undefined` (`body[0]`). See
  `InsertAction.EmptyArrayBody`.
- The connection URI is built by string concatenation. A route with no `db`
  parameter therefore connects to `<baseUri>/undefined` unless something
  upstream sets the parameter (`InsertAction.ConnectionUri`).
- Success answers `docs[0]`, the first document the store reports back. When
  the store reports none, that is `undefined`.

## Model

| member | source | states |
|---|---|---|
| `Routes.Prefixed` | lib/routes.js:45-51 | every route URL starts with the URL prefix; every tail except `/dbs` also gets the database segment; the length shows that `/` counts as an empty tail and `/dbs` never gets the segment |
| `Routes.PrefixedDbs` | lib/routes.js:48-49 | `/dbs` is mounted at prefix + `/dbs` in both endpoint-root modes |
| `Routes.PrefixedRoot` | lib/routes.js:46-50 | the tail `/` is mounted at exactly prefix + database segment |
| `Routes.PrefixedOther` | lib/routes.js:50 | any other tail `t` is mounted at prefix + database segment + `t` |
| `Routes.DerivedSettings` | lib/routes.js:18-20 | the database segment is empty iff the endpoint root is a database, `/:db` otherwise; an unset URL prefix is `''` |
| `Routes.RouteTable` | lib/routes.js:22-38 | exactly six bindings, each action bound once |
| `Routes.RoutePaths` | lib/routes.js:22-38 | the verb, full path and action of each binding in each mode: GET `/dbs`, GET collections, GET query with optional `:id`, POST without id, PUT and DELETE with mandatory `:id` |
| `Routes.RouteKeysDistinct` | lib/routes.js:22-38 | no two bindings share verb and path, for any prefix, in either mode |
| `Routes.Mount` | lib/routes.js:11-38 | the authentication module is installed iff `config.auth` is truthy, and its routes come first; the derived settings are as above; the six bindings are appended after them in registration order |
| `Routes.App.Register` | lib/routes.js:23-38 | registering appends one binding and changes nothing else |
| `Routes.App.InstallAuth` | lib/routes.js:12 | installing authentication appends the authentication module's routes, given as a parameter, and marks it installed |
| `Routes.PassingPrefix` | lib/routes.js:74-81 | the number of leading checks that pass, characterised: all before it pass, the one at it fails, and it equals the number of checks iff all pass |
| `Routes.ChecksAppend` | lib/routes.js:75-78 | checks registered later run only when all earlier ones pass and never change how the earlier ones run; the combined verdict is the conjunction |
| `Routes.Before` | lib/routes.js:74-81 | returns true iff every check's result is truthy; calls the checks in order up to and including the first falsy one and no further; the response gets exactly the calls of the checks that ran |
| `Routes.Action` | lib/routes.js:57-66 | the action runs iff all checks pass and then gets exactly `{config, dbConfig, utils, logger}`; when a check fails the response gets only the checks' own calls and the store is never touched; otherwise the response then gets exactly the action's calls |
| `InsertAction.PlanFor` | lib/actions/post-insert.js:9-45 | a status is set iff the body is truthy, and it is 201 or 500 with `{message: 'Server error'}`; a falsy body answers `[]` with no store call; otherwise the store calls are a non-empty prefix of connect, collection, insert, and 201 is reached only through all three |
| `InsertAction.Handle` | lib/actions/post-insert.js:9-45 | the handler's effect on the response and its store calls are exactly those of `PlanFor`, and it writes exactly one payload |
| `InsertAction.OneResponse` | lib/actions/post-insert.js:13-14 | every path writes exactly one payload |
| `InsertAction.AbsentBody` | lib/actions/post-insert.js:12-15 | a falsy body: `json([])` with no status and no store call |
| `InsertAction.ConnectsToDatabase` | lib/actions/post-insert.js:17 | the first store call connects to the base URI + `/` + the `db` parameter |
| `InsertAction.ConnectFailure` | lib/actions/post-insert.js:17-22 | a connect error gives 500 with the generic body, and the collection is never requested |
| `InsertAction.CollectionFailure` | lib/actions/post-insert.js:24-29 | a collection error gives 500 with the generic body, and insert is never attempted |
| `InsertAction.InsertFailure` | lib/actions/post-insert.js:32-39 | an insert error gives 500 with the generic body, after all three store calls |
| `InsertAction.Created` | lib/actions/post-insert.js:41 | success gives 201 with the first document the store reports, or `undefined` when it reports none |
| `InsertAction.InsertsOneDocument` | lib/actions/post-insert.js:31-33 | insert is called at most once, as the third call, with the chosen document: an object body unchanged (a caller's `_id` included), the first element of an array body |
| `InsertAction.EmptyArrayBody` | lib/actions/post-insert.js:12-33 | an empty array body is truthy, so it reaches the store and its document is `undefined` |

## Left out

- `server.js`: the legacy process bootstrap (framework setup, reading the configuration file, the CORS header, listening). It is I/O and framework wiring.
- The document-store driver: persistence, id generation and `_id` semantics. The store is an oracle of outcomes, which answers the same way for the same arguments.
- Framework route matching and dispatch order between overlapping patterns, and request parsing. `Routes.RouteTable` gives the bindings, not how requests are matched against them.
- The authentication module, the pre-route checks, and the endpoint, database-config and utils helpers. Their code is not part of this model. The authentication module's routes (among them the login route) are a parameter of `Mount`, and their handlers are known only by name; the checks are abstract functions; the helpers' results are parameters of `Mount`.
- Routes.Before: a check is modelled as changing only the response. A check that changed the request, for example by filling in route parameters, is not modelled. A check's verdict and its calls on the response depend only on the request and the configuration, not on what the response already holds.
- Routes.Action: only the insert action is modelled. The other five are an abstract function from the action name, request and tools to response calls. Loading the action module by file name is not modelled.
- The order of the registered checks is their key order in the checks module. The model takes that order as a sequence.
- Logging calls (`logger.error`) and output formatting: logging is a side effect only, and formatting is done by unseen helpers.
- Asynchrony: the callbacks are a sequential chain.
- Exceptions thrown inside a callback are not modelled. A successful insert report is taken to be an array of documents; a driver that reported success with `docs` null or undefined would make `docs[0]` throw.
- Numbers in JavaScript values are integers; floating point (and `NaN`) is not modelled.
- The framework's refusal to write a second response, and its default status when none is set: a response records every write, and a status of `None` means none was set.
