/** Route setup: the URL each route is mounted at, the six route bindings,
    and the pipeline that runs every registered check before an action. */
module Routes {
  import opened Js
  import opened Http
  import opened Settings
  import InsertAction

  datatype Verb = Get | Post | Put | Delete

  /** The six route actions, one per file under `lib/actions/`. */
  datatype ActionName =
    | GetDbNames | GetCollectionNames | GetQuery | PostInsert | PutUpdate | DeleteQuery

  /** What a route runs: one of the six actions (`action(name)`), or a
      handler of the authentication module, known here only by a name. */
  datatype Handler = RunAction(action: ActionName) | AuthHandler(name: string)

  /** One registration `app.<verb>(path, handler)`. */
  datatype Route = Route(verb: Verb, path: string, handler: Handler)

  /** The database path segment: none when the endpoint root is a database
      (the database is fixed by configuration), `/:db` otherwise. */
  function DbParam(isDbEndpoint: bool): string {
    if isDbEndpoint then "" else "/:db"
  }

  /** `config.urlPrefix || ''`: an unset prefix (and an empty one) is `''`. */
  function UrlPrefix(config: Config): string {
    if config.urlPrefix.Some? then config.urlPrefix.value else ""
  }

  /** The full route URL for a tail: the tail `/` counts as empty, and
      `/dbs` never carries the database segment. */
  function Prefixed(urlPrefix: string, dbParam: string, url: string): (r: string)
    ensures urlPrefix <= r
    ensures url != "/dbs" ==> urlPrefix + dbParam <= r
    ensures |r| == |urlPrefix| + (if url == "/dbs" then 0 else |dbParam|) + (if url == "/" then 0 else |url|)
  {
    var tail := if url == "/" then "" else url;
    if tail == "/dbs" then urlPrefix + tail else urlPrefix + dbParam + tail
  }

  lemma PrefixedDbs(urlPrefix: string, isDbEndpoint: bool)
    ensures Prefixed(urlPrefix, DbParam(isDbEndpoint), "/dbs") == urlPrefix + "/dbs"
  {
  }

  lemma PrefixedRoot(urlPrefix: string, dbParam: string)
    ensures Prefixed(urlPrefix, dbParam, "/") == urlPrefix + dbParam
  {
  }

  lemma PrefixedOther(urlPrefix: string, dbParam: string, tail: string)
    requires tail != "/" && tail != "/dbs"
    ensures Prefixed(urlPrefix, dbParam, tail) == urlPrefix + dbParam + tail
  {
  }

  /** The settings derived once when the routes are set up. */
  lemma DerivedSettings(config: Config, isDbEndpoint: bool)
    ensures DbParam(isDbEndpoint) == "" <==> isDbEndpoint
    ensures !isDbEndpoint ==> DbParam(isDbEndpoint) == "/:db"
    ensures config.urlPrefix.None? ==> UrlPrefix(config) == ""
    ensures config.urlPrefix.Some? ==> UrlPrefix(config) == config.urlPrefix.value
  {
  }

  /** The six bindings, in registration order. */
  function RouteTable(urlPrefix: string, dbParam: string): (t: seq<Route>)
    ensures |t| == 6
    ensures forall i, j :: 0 <= i < j < |t| ==> t[i].handler != t[j].handler
  {
    [ Route(Get, Prefixed(urlPrefix, dbParam, "/dbs"), RunAction(GetDbNames)),
      Route(Get, Prefixed(urlPrefix, dbParam, "/"), RunAction(GetCollectionNames)),
      Route(Get, Prefixed(urlPrefix, dbParam, "/:collection/:id?"), RunAction(GetQuery)),
      Route(Post, Prefixed(urlPrefix, dbParam, "/:collection"), RunAction(PostInsert)),
      Route(Put, Prefixed(urlPrefix, dbParam, "/:collection/:id"), RunAction(PutUpdate)),
      Route(Delete, Prefixed(urlPrefix, dbParam, "/:collection/:id"), RunAction(DeleteQuery)) ]
  }

  /** The mounted paths in each endpoint-root mode: the query takes an
      optional `:id`, insert none, update and delete a mandatory one. */
  lemma RoutePaths(urlPrefix: string, isDbEndpoint: bool)
    ensures var db := if isDbEndpoint then "" else "/:db";
      RouteTable(urlPrefix, DbParam(isDbEndpoint)) ==
      [ Route(Get, urlPrefix + "/dbs", RunAction(GetDbNames)),
        Route(Get, urlPrefix + db, RunAction(GetCollectionNames)),
        Route(Get, urlPrefix + db + "/:collection/:id?", RunAction(GetQuery)),
        Route(Post, urlPrefix + db + "/:collection", RunAction(PostInsert)),
        Route(Put, urlPrefix + db + "/:collection/:id", RunAction(PutUpdate)),
        Route(Delete, urlPrefix + db + "/:collection/:id", RunAction(DeleteQuery)) ]
  {
    var db := DbParam(isDbEndpoint);
    assert urlPrefix + db + "" == urlPrefix + db;
    assert "/:collection/:id?"[1] != "/dbs"[1];
    assert "/:collection"[1] != "/dbs"[1];
    assert "/:collection/:id"[1] != "/dbs"[1];
  }

  /** No two bindings share both verb and path, in either mode and for any prefix. */
  lemma RouteKeysDistinct(urlPrefix: string, isDbEndpoint: bool)
    ensures var t := RouteTable(urlPrefix, DbParam(isDbEndpoint));
      forall i, j :: 0 <= i < j < |t| ==> t[i].verb != t[j].verb || t[i].path != t[j].path
  {
    var t := RouteTable(urlPrefix, DbParam(isDbEndpoint));
    var db := DbParam(isDbEndpoint);
    RoutePaths(urlPrefix, isDbEndpoint);
    var n := |urlPrefix|;
    // the list of databases against the list of collections
    if isDbEndpoint {
      assert |t[0].path| != |t[1].path|;
    } else {
      assert t[0].path[n + 1] == 'd' && t[1].path[n + 1] == ':';
    }
    // the list of databases against the query
    assert t[0].path[n + 1] == 'd' && t[2].path[n + 1] == ':';
    // the list of collections against the query
    assert |t[1].path| != |t[2].path|;
  }

  /** The application routes are registered on, with the bindings in
      registration order and whether the authentication module was installed. */
  class App {
    var routes: seq<Route>
    var authInstalled: bool

    constructor ()
      ensures routes == [] && !authInstalled
    {
      routes := [];
      authInstalled := false;
    }

    /** `auth(app, config)`: the authentication module registers its own
        routes (`authRoutes`, among them the login route) on the application. */
    method InstallAuth(authRoutes: seq<Route>)
      modifies this
      ensures authInstalled && routes == old(routes) + authRoutes
    {
      authInstalled := true;
      routes := routes + authRoutes;
    }

    method Register(verb: Verb, path: string, action: ActionName)
      modifies this
      ensures routes == old(routes) + [Route(verb, path, RunAction(action))]
      ensures authInstalled == old(authInstalled)
    {
      routes := routes + [Route(verb, path, RunAction(action))];
    }
  }

  /** What one registered check reports: its return value (read for its
      truthiness) and the calls it makes on the response. */
  datatype CheckResult = CheckResult(verdict: Json, ops: seq<ResponseOp>)

  /** A registered pre-route check: its name and what it does when called
      with the request and the configuration. */
  datatype Check = Check(name: string, run: (Request, Config) -> CheckResult)

  predicate Passes(c: Check, request: Request, config: Config) {
    Truthy(c.run(request, config).verdict)
  }

  predicate AllPass(checks: seq<Check>, request: Request, config: Config) {
    forall i :: 0 <= i < |checks| ==> Passes(checks[i], request, config)
  }

  /** The number of leading checks that pass: the first failing one sits at
      this index, if there is one. */
  function PassingPrefix(checks: seq<Check>, request: Request, config: Config): (k: nat)
    ensures k <= |checks|
    ensures forall i :: 0 <= i < k ==> Passes(checks[i], request, config)
    ensures k < |checks| ==> !Passes(checks[k], request, config)
    ensures k == |checks| <==> AllPass(checks, request, config)
    decreases |checks|
  {
    if checks == [] || !Passes(checks[0], request, config) then 0
    else 1 + PassingPrefix(checks[1..], request, config)
  }

  /** The number of checks that are called: all of them when all pass,
      otherwise up to and including the first that fails. */
  function Invoked(checks: seq<Check>, request: Request, config: Config): nat {
    var k := PassingPrefix(checks, request, config);
    if k < |checks| then k + 1 else k
  }

  /** Appending checks after the registered ones never changes how the
      earlier ones run: the later checks are reached only when all the
      earlier ones pass. */
  lemma {:induction false} ChecksAppend(a: seq<Check>, b: seq<Check>, request: Request, config: Config)
    ensures PassingPrefix(a + b, request, config) ==
      if PassingPrefix(a, request, config) < |a| then PassingPrefix(a, request, config)
      else |a| + PassingPrefix(b, request, config)
    ensures AllPass(a + b, request, config) <==> AllPass(a, request, config) && AllPass(b, request, config)
    decreases |a|
  {
    if a != [] {
      assert (a + b)[0] == a[0];
      assert (a + b)[1..] == a[1..] + b;
      ChecksAppend(a[1..], b, request, config);
    } else {
      assert a + b == b;
    }
  }

  function Names(checks: seq<Check>): (r: seq<string>)
    ensures |r| == |checks|
  {
    seq(|checks|, i requires 0 <= i < |checks| => checks[i].name)
  }

  /** The response calls `checks` make when each of them is called, in order. */
  function CheckOps(checks: seq<Check>, request: Request, config: Config): seq<ResponseOp>
    decreases |checks|
  {
    if checks == [] then []
    else CheckOps(checks[..|checks| - 1], request, config) + checks[|checks| - 1].run(request, config).ops
  }

  /** The values fixed when the routes are set up, which every action closes over. */
  datatype Setup = Setup(
    config: Config,
    dbConfig: DbConfig,
    utils: Utils,
    logger: Logger,
    dbParam: string,
    urlPrefix: string,
    checks: seq<Check>)

  /** The bundle `{config, dbConfig, utils, logger}` handed to an action. */
  function ToolsOf(s: Setup): Tools {
    Tools(s.config, s.dbConfig, s.utils, s.logger)
  }

  /** Sets up the routes on `app`. `isDbEndpoint`, `dbConfig` and `utils`
      are what the endpoint, database-config and utils helpers compute from
      `config`; `checks` are the registered pre-route checks in order;
      `authRoutes` are the routes the authentication module registers,
      whose handlers are not part of this model. */
  method Mount(app: App, config: Config, isDbEndpoint: bool, dbConfig: DbConfig, utils: Utils,
               checks: seq<Check>, authRoutes: seq<Route>)
    returns (setup: Setup)
    modifies app
    ensures app.authInstalled == (old(app.authInstalled) || Truthy(config.auth))
    ensures setup == Setup(config, dbConfig, utils, config.logger, DbParam(isDbEndpoint), UrlPrefix(config), checks)
    ensures app.routes == old(app.routes) + (if Truthy(config.auth) then authRoutes else [])
                          + RouteTable(setup.urlPrefix, setup.dbParam)
  {
    if Truthy(config.auth) {
      app.InstallAuth(authRoutes);
    }
    ghost var start := app.routes;
    assert start == old(app.routes) + (if Truthy(config.auth) then authRoutes else []);

    var logger := config.logger;
    var dbParam := DbParam(isDbEndpoint);
    var urlPrefix := UrlPrefix(config);
    setup := Setup(config, dbConfig, utils, logger, dbParam, urlPrefix, checks);

    app.Register(Get, Prefixed(urlPrefix, dbParam, "/dbs"), GetDbNames);
    app.Register(Get, Prefixed(urlPrefix, dbParam, "/"), GetCollectionNames);
    app.Register(Get, Prefixed(urlPrefix, dbParam, "/:collection/:id?"), GetQuery);
    app.Register(Post, Prefixed(urlPrefix, dbParam, "/:collection"), PostInsert);
    app.Register(Put, Prefixed(urlPrefix, dbParam, "/:collection/:id"), PutUpdate);
    app.Register(Delete, Prefixed(urlPrefix, dbParam, "/:collection/:id"), DeleteQuery);
  }

  /** Calls the registered checks in order, stopping at the first whose
      result is falsy. Returns whether all passed and the names of the
      checks called. */
  method Before(setup: Setup, request: Request, response: Response)
    returns (ok: bool, invoked: seq<string>)
    modifies response
    ensures ok <==> AllPass(setup.checks, request, setup.config)
    ensures var n := Invoked(setup.checks, request, setup.config);
      invoked == Names(setup.checks[..n]) &&
      response.State() == Applied(old(response.State()), CheckOps(setup.checks[..n], request, setup.config))
  {
    var checks, config := setup.checks, setup.config;
    invoked := [];
    var i := 0;
    while i < |checks|
      invariant 0 <= i <= |checks|
      invariant forall j :: 0 <= j < i ==> Passes(checks[j], request, config)
      invariant invoked == Names(checks[..i])
      invariant response.State() == Applied(old(response.State()), CheckOps(checks[..i], request, config))
    {
      var result := checks[i].run(request, config);
      AppliedConcat(old(response.State()), CheckOps(checks[..i], request, config), result.ops);
      assert checks[..i + 1][..i] == checks[..i];
      response.PerformAll(result.ops);
      invoked := invoked + [checks[i].name];
      if !Truthy(result.verdict) {
        assert PassingPrefix(checks, request, config) == i;
        return false, invoked;
      }
      i := i + 1;
    }
    assert checks[..i] == checks;
    return true, invoked;
  }

  /** What the action `name` does to the response once every check has
      passed. Only the insert action is part of this model; the other five
      are given by `others`. */
  function HandlerOps(name: ActionName, request: Request, tools: Tools, store: InsertAction.Store,
                      others: (ActionName, Request, Tools) -> seq<ResponseOp>): seq<ResponseOp>
  {
    if name == PostInsert then InsertAction.Ops(InsertAction.PlanFor(request, tools.dbConfig.baseUri, store))
    else others(name, request, tools)
  }

  /** The handler registered for action `name`: runs the checks and, only
      when all pass, the action with the tools bundle. Returns the tools the
      action was given (`None` when it was not called), the names of the
      checks called and the store calls of the insert action. */
  method Action(name: ActionName, setup: Setup, request: Request, response: Response,
                store: InsertAction.Store, others: (ActionName, Request, Tools) -> seq<ResponseOp>)
    returns (tools: Option<Tools>, invoked: seq<string>, storeCalls: seq<InsertAction.StoreCall>)
    modifies response
    ensures var n := Invoked(setup.checks, request, setup.config);
      invoked == Names(setup.checks[..n])
    ensures tools.Some? <==> AllPass(setup.checks, request, setup.config)
    ensures tools.Some? ==> tools.value == Tools(setup.config, setup.dbConfig, setup.utils, setup.logger)
    ensures var n := Invoked(setup.checks, request, setup.config);
      var gated := Applied(old(response.State()), CheckOps(setup.checks[..n], request, setup.config));
      if tools.None? then response.State() == gated && storeCalls == []
      else
        response.State() == Applied(gated, HandlerOps(name, request, tools.value, store, others)) &&
        storeCalls == (if name == PostInsert
                       then InsertAction.PlanFor(request, setup.dbConfig.baseUri, store).calls
                       else [])
  {
    var ok;
    ok, invoked := Before(setup, request, response);
    storeCalls := [];
    if !ok {
      tools := None;
      return;
    }
    var bundle := ToolsOf(setup);
    tools := Some(bundle);
    if name == PostInsert {
      storeCalls := InsertAction.Handle(request, response, bundle, store);
    } else {
      response.PerformAll(others(name, request, bundle));
    }
  }
}
