/** The server (src/index.ts): the request context, the middleware stack
    `createServer` builds, and the two default finalizers that turn the
    staging record `res.locals` into one JSON response. */
module Server {
  import opened Js
  import opened Config
  import opened Express
  import opened SchemaValidation
  import Api
  import Views
  import QueryBuilder

  // -----------------------------------------------------------------------
  // Finalizers
  // -----------------------------------------------------------------------

  /** `res.status(status).json(body)`. */
  datatype JsonResponse = JsonResponse(status: Value, body: map<string, Value>)

  /** `defaultSuccessHandler`: status `res.locals.status` (200 when unset)
      and the body `{data, meta, links}` taken from `res.locals`. */
  function DefaultSuccessHandler(locals: Locals): (r: JsonResponse)
    ensures locals.status.Undefined? ==> r.status == Num(200)
    ensures !locals.status.Undefined? ==> r.status == locals.status
    ensures r.body.Keys == {"data", "meta", "links"}
    ensures r.body["data"] == locals.data && r.body["meta"] == locals.meta && r.body["links"] == locals.links
  {
    JsonResponse(OrDefault(locals.status, Num(200)),
      map["data" := locals.data, "meta" := locals.meta, "links" := locals.links])
  }

  /** What the error finalizer logs and what it answers. */
  datatype ErrorReport = ErrorReport(logged: Value, response: JsonResponse)

  /** `defaultErrorHandler`: logs `res.locals.error` (else the error), and
      answers `{error: err}` with status `res.locals.status`, 500 when
      unset. The error's own `status` is not read. */
  function DefaultErrorHandler(err: Value, locals: Locals): (r: ErrorReport)
    ensures r.logged == (if locals.error.Undefined? then err else locals.error)
    ensures r.response.status == (if locals.status.Undefined? then Num(500) else locals.status)
    ensures r.response.body == map["error" := err]
  {
    ErrorReport(OrDefault(locals.error, err),
      JsonResponse(OrDefault(locals.status, Num(500)), map["error" := err]))
  }

  /** The status of the error response is the same whatever was thrown. */
  lemma ErrorStatusIgnoresThrownStatus(e1: Value, e2: Value, locals: Locals)
    ensures DefaultErrorHandler(e1, locals).response.status == DefaultErrorHandler(e2, locals).response.status
  {
  }

  /** A failed validation throws an error carrying status 400, yet the
      default error finalizer answers it with 500: it reads the status from
      `res.locals`, which the handler never set. */
  lemma ValidationFailureAnswers500(config: SchemasConfig, domain: string, op: Op, req: Request,
                                    validate: Validator, db: QueryBuilder.Backend)
    requires op in config.schemas
    requires |validate(Api.ValidatedInput(op, req), config.schemas[op])| > 0
    ensures var r := Api.Run(config, domain, op, req, validate, db);
      && r.staged.Throw? && r.staged.thrown.status == Num(400)
      && DefaultErrorHandler(r.staged.thrown, NoLocals).response.status == Num(500)
  {
    Api.ValidationFailureShortCircuits(config, domain, op, req, validate, db);
  }

  /** The members `JSON.stringify` writes for an object: those whose value is
      neither `undefined` nor a function are kept. */
  function JsonMembers(body: map<string, Value>): (r: map<string, Value>)
    ensures forall k :: k in r <==> k in body && !body[k].Undefined? && !body[k].ConstFn?
    ensures forall k :: k in r ==> r[k] == body[k]
  {
    map k | k in body && !body[k].Undefined? && !body[k].ConstFn? :: body[k]
  }

  /** Because the default formatter is `always`, a create, readOne, update
      or destroy without an output formatter stages a function, and the
      JSON the client receives has no `data` at all. */
  lemma UnformattedResultSendsNoData(config: SchemasConfig, domain: string, op: Op, req: Request,
                                     validate: Validator, db: QueryBuilder.Backend)
    requires op != ReadMany
    requires config.formatters.Some? && op !in config.formatters.value
    requires Api.Plan(config, domain, op, req, validate).Normal?
    requires db(Api.Plan(config, domain, op, req, validate).value.query).Normal?
    ensures var staged := Api.Run(config, domain, op, req, validate, db).staged;
      && staged.Normal?
      && "data" !in JsonMembers(DefaultSuccessHandler(NoLocals.(data := staged.value)).body)
  {
    Api.UnformattedOutputIsAlways(config, domain, op, req, validate, db);
  }

  // -----------------------------------------------------------------------
  // Context and middleware
  // -----------------------------------------------------------------------

  /** What `setContext`'s middleware does to each request. */
  function WithContext(context: Context, req: Request): (r: Request)
    ensures r.context == Some(context)
    ensures r.query == req.query && r.body == req.body && r.params == req.params
  {
    req.(context := Some(context))
  }

  /** `setContext`: register the middleware that writes `req.context`. */
  method SetContext(server: App, context: Context) returns (s: App)
    modifies server
    ensures s == server
    ensures server.stack == old(server.stack) + [Middleware("/", ContextSetter(context))]
    ensures server.settings == old(server.settings) && server.log == old(server.log) && server.db == old(server.db)
  {
    server.Use(ContextSetter(context));
    return server;
  }

  /** A middleware factory; calling it gives the handler. */
  datatype Factory = MorganDev | CorsFactory | HelmetFactory | UserFactory(name: string)

  /** `fn()`. */
  function Instantiate(f: Factory): Handler {
    match f
    case MorganDev => Morgan("dev")
    case CorsFactory => Cors
    case HelmetFactory => Helmet
    case UserFactory(name) => User(name)
  }

  /** The layers `server.use(fn())` adds for each factory, in order. */
  function UseEach(fs: seq<Factory>): (r: seq<Layer>)
    ensures |r| == |fs|
    ensures forall i :: 0 <= i < |fs| ==> r[i] == Middleware("/", Instantiate(fs[i]))
  {
    seq(|fs|, i requires 0 <= i < |fs| => Middleware("/", Instantiate(fs[i])))
  }

  /** `addPreware`: `server.use(fn())` for each factory in order. */
  method AddPreware(server: App, preware: seq<Factory>)
    modifies server
    ensures server.stack == old(server.stack) + UseEach(preware)
    ensures server.settings == old(server.settings) && server.log == old(server.log) && server.db == old(server.db)
  {
    for i := 0 to |preware|
      invariant server.stack == old(server.stack) + UseEach(preware[..i])
      invariant server.settings == old(server.settings) && server.log == old(server.log) && server.db == old(server.db)
    {
      server.Use(Instantiate(preware[i]));
      assert UseEach(preware[..i + 1]) == UseEach(preware[..i]) + [Middleware("/", Instantiate(preware[i]))];
    }
    assert preware[..|preware|] == preware;
  }

  /** `addPostware`: the same loop over the postware. */
  method AddPostware(server: App, postware: seq<Factory>)
    modifies server
    ensures server.stack == old(server.stack) + UseEach(postware)
    ensures server.settings == old(server.settings) && server.log == old(server.log) && server.db == old(server.db)
  {
    for i := 0 to |postware|
      invariant server.stack == old(server.stack) + UseEach(postware[..i])
      invariant server.settings == old(server.settings) && server.log == old(server.log) && server.db == old(server.db)
    {
      server.Use(Instantiate(postware[i]));
      assert UseEach(postware[..i + 1]) == UseEach(postware[..i]) + [Middleware("/", Instantiate(postware[i]))];
    }
    assert postware[..|postware|] == postware;
  }

  // -----------------------------------------------------------------------
  // createServer
  // -----------------------------------------------------------------------

  /** `ServerConfig`. The database connection settings are not kept: the
      connection `connectToDB` opens is passed to `CreateServer` as a handle.
      `tempalteType` keeps the source's spelling. */
  datatype ServerConfig = ServerConfig(
    serviceName: string,
    logLevel: Option<string>,
    preware: Option<seq<Factory>>,
    postware: Option<seq<Factory>>,
    onError: Option<Handler>,
    onResult: Option<Handler>,
    domains: Domains,
    apiPrefix: Option<string>,
    templateDir: Option<string>,
    tempalteType: Option<string>)

  /** `bunyan.createLogger({ name: serviceName, level: logLevel || 'trace' })`. */
  function LoggerFor(config: ServerConfig): (r: Logger)
    ensures r.name == config.serviceName
    ensures r.level == (if config.logLevel.Some? && config.logLevel.value != "" then config.logLevel.value else "trace")
  {
    Logger(config.serviceName,
      match config.logLevel case Some(l) => if l != "" then l else "trace" case None => "trace")
  }

  /** `config.apiPrefix || '/api'`. */
  function ApiPrefix(config: ServerConfig): (r: string)
    ensures r != ""
    ensures config.apiPrefix.Some? && config.apiPrefix.value != "" ==> r == config.apiPrefix.value
    ensures config.apiPrefix.None? || config.apiPrefix.value == "" ==> r == "/api"
  {
    match config.apiPrefix
    case Some(p) => if p != "" then p else "/api"
    case None => "/api"
  }

  /** `x || []`. */
  function OrEmpty(fs: Option<seq<Factory>>): seq<Factory> {
    match fs case Some(s) => s case None => []
  }

  /** `config.onResult || h`, `config.onError || h`. */
  function OrHandler(configured: Option<Handler>, fallback: Handler): Handler {
    match configured case Some(h) => h case None => fallback
  }

  /** morgan, cors and helmet come before the caller's preware. */
  const BuiltinPreware: seq<Factory> := [MorganDev, CorsFactory, HelmetFactory]

  /** The stack `createServer` builds around the API's layers and the view
      routes. */
  function Assemble(config: ServerConfig, db: DbHandle, api: seq<Layer>, views: seq<Layer>): seq<Layer> {
    [Middleware("/", ContextSetter(Context(LoggerFor(config), db)))]
      + UseEach(BuiltinPreware + OrEmpty(config.preware))
      + [Mounted(ApiPrefix(config), api)]
      + UseEach(OrEmpty(config.postware))
      + views
      + [Middleware("/", OrHandler(config.onResult, SuccessFinalizer)),
         Middleware("/", OrHandler(config.onError, ErrorFinalizer))]
  }

  /** The stack `createServer` builds, or what it throws. The API is built
      without a multer instance. */
  function ServerStack(config: ServerConfig, db: DbHandle): Completion<seq<Layer>> {
    var api :- Api.ApiLayers(config.domains, None);
    var views :- Views.ViewLayers(config.domains);
    Normal(Assemble(config, db, api, views))
  }

  /** `ServerStack` case by case: the API's throw, then the views' throw,
      else the assembled stack. */
  lemma ServerStackCases(config: ServerConfig, db: DbHandle)
    ensures Api.ApiLayers(config.domains, None).Throw? ==>
      ServerStack(config, db) == Throw(Api.ApiLayers(config.domains, None).thrown)
    ensures Api.ApiLayers(config.domains, None).Normal? && Views.ViewLayers(config.domains).Throw? ==>
      ServerStack(config, db) == Throw(Views.MissingViews)
    ensures Api.ApiLayers(config.domains, None).Normal? && Views.ViewLayers(config.domains).Normal? ==>
      ServerStack(config, db)
      == Normal(Assemble(config, db, Api.ApiLayers(config.domains, None).value, Views.ViewLayers(config.domains).value))
  {
    Views.ViewLayersPerDomain(config.domains);
  }

  /** The middleware order: context; morgan, cors, helmet, then the
      caller's preware; the API at its prefix; the postware; the views;
      the result handler; the error handler last. */
  lemma {:induction false} MiddlewareOrder(config: ServerConfig, db: DbHandle)
    requires ServerStack(config, db).Normal?
    ensures var s := ServerStack(config, db).value;
      var pre := OrEmpty(config.preware);
      var post := OrEmpty(config.postware);
      var views := Views.ViewLayers(config.domains).value;
      && |s| == 7 + |pre| + |post| + |views|
      && s[0] == Middleware("/", ContextSetter(Context(LoggerFor(config), db)))
      && s[1] == Middleware("/", Morgan("dev"))
      && s[2] == Middleware("/", Cors)
      && s[3] == Middleware("/", Helmet)
      && (forall i :: 0 <= i < |pre| ==> s[4 + i] == Middleware("/", Instantiate(pre[i])))
      && s[4 + |pre|] == Mounted(ApiPrefix(config), Api.ApiLayers(config.domains, None).value)
      && (forall i :: 0 <= i < |post| ==> s[5 + |pre| + i] == Middleware("/", Instantiate(post[i])))
      && s[5 + |pre| + |post|..|s| - 2] == views
      && s[|s| - 2] == Middleware("/", OrHandler(config.onResult, SuccessFinalizer))
      && s[|s| - 1] == Middleware("/", OrHandler(config.onError, ErrorFinalizer))
  {
    var pre := OrEmpty(config.preware);
    var post := OrEmpty(config.postware);
    var views := Views.ViewLayers(config.domains).value;
    var ctx := [Middleware("/", ContextSetter(Context(LoggerFor(config), db)))];
    var a := UseEach(BuiltinPreware + pre);
    var m := [Mounted(ApiPrefix(config), Api.ApiLayers(config.domains, None).value)];
    var b := UseEach(post);
    var fin := [Middleware("/", OrHandler(config.onResult, SuccessFinalizer)),
                Middleware("/", OrHandler(config.onError, ErrorFinalizer))];
    var s := ServerStack(config, db).value;
    assert s == ctx + a + m + b + views + fin;
    assert |a| == 3 + |pre|;
    forall i | 0 <= i < |pre|
      ensures s[4 + i] == Middleware("/", Instantiate(pre[i]))
    {
      assert (BuiltinPreware + pre)[3 + i] == pre[i];
    }
    assert s[5 + |pre| + |post|..|s| - 2] == views;
  }

  /** Since the API is built without a multer instance, a configuration in
      which any domain accepts files on create or update makes
      `createServer` throw. */
  lemma FileUploadsBreakCreateServer(config: ServerConfig, db: DbHandle)
    ensures (exists i :: 0 <= i < |config.domains| && Api.AcceptsFiles(config.domains[i].1.schemas))
      ==> ServerStack(config, db).Throw?
    ensures ServerStack(config, db).Normal? <==>
      (forall i :: 0 <= i < |config.domains| ==> !Api.AcceptsFiles(config.domains[i].1.schemas))
      && (forall i :: 0 <= i < |config.domains| ==> config.domains[i].1.views.Some?)
  {
    Api.ApiBuildsUnlessUploadMissing(config.domains, None);
    Views.ViewLayersPerDomain(config.domains);
  }

  /** `createServer`: build the API (throwing before anything else when it
      cannot), then the app in the order above, and attach `log` and `db`. */
  method CreateServer(config: ServerConfig, db: DbHandle) returns (r: Completion<App>)
    ensures r.Normal? <==> ServerStack(config, db).Normal?
    ensures r.Normal? ==> fresh(r.value) && r.value.stack == ServerStack(config, db).value
    ensures r.Normal? ==> r.value.settings == Views.ViewSettings(config.templateDir, config.tempalteType)
    ensures r.Normal? ==> r.value.log == Some(LoggerFor(config)) && r.value.db == Some(db)
    ensures r.Throw? ==> r == Throw(ServerStack(config, db).thrown)
  {
    ServerStackCases(config, db);
    var log := LoggerFor(config);
    var api := Api.CreateAPI(config.domains, None);
    if api.Throw? {
      return Throw(api.thrown);
    }
    var context := Context(log, db);
    var server := new App();
    server := SetContext(server, context);
    assert server.stack == [Middleware("/", ContextSetter(context))];
    AddPreware(server, BuiltinPreware + OrEmpty(config.preware));
    server.UseRouter(ApiPrefix(config), api.value.stack);
    AddPostware(server, OrEmpty(config.postware));
    ghost var middle := server.stack;
    var views := Views.CreateViews(server, config.domains, config.templateDir, config.tempalteType);
    if views.Throw? {
      return Throw(views.thrown);
    }
    ghost var viewLayers := Views.ViewLayers(config.domains).value;
    ghost var built := server.stack;
    assert built == middle + viewLayers;
    server.Use(OrHandler(config.onResult, SuccessFinalizer));
    server.Use(OrHandler(config.onError, ErrorFinalizer));
    server.log, server.db := Some(log), Some(db);
    AppendAssoc(built, [Middleware("/", OrHandler(config.onResult, SuccessFinalizer))],
                [Middleware("/", OrHandler(config.onError, ErrorFinalizer))]);
    assert server.stack == Assemble(config, db, api.value.stack, viewLayers);
    return Normal(server);
  }
}
