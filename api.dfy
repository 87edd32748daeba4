/** The CRUD request-pipeline generator (src/api.ts): the upload gate, the
    five handlers of a domain, its route table, and the API router that
    mounts one sub-router per domain.

    A handler is modelled in two steps: `Plan` runs everything up to the
    database call (validation, formatter lookup, input formatting) and
    either throws or yields the query to issue; `Stage` turns what the
    database answered into the value staged in `res.locals.data`. `Handle`
    runs both against a `Response` object. */
module Api {
  import opened Js
  import opened Config
  import opened QueryBuilder
  import opened SchemaValidation
  import opened Express

  // -----------------------------------------------------------------------
  // The upload gate
  // -----------------------------------------------------------------------

  /** `pathOr(false, [name, 'acceptFiles'], config)`. */
  function AcceptFiles(config: SchemasConfig, name: Op): Value {
    PathOr(Bool(false), if name in config.schemas then config.schemas[name].acceptFiles else Undefined)
  }

  /** `[{ name: 'file' }]`. */
  const DefaultFileFields := Arr([Obj(map["name" := Str("file")])])

  /** `pathOr([{ name: 'file' }], [name, 'acceptedKeys'], config)`. */
  function AcceptedKeys(config: SchemasConfig, name: Op): (r: Value)
    ensures name !in config.schemas ==> r == DefaultFileFields
    ensures name in config.schemas ==>
      var k := config.schemas[name].acceptedKeys;
      r == (if k.Undefined? || k.Null? then DefaultFileFields else k)
  {
    PathOr(DefaultFileFields, if name in config.schemas then config.schemas[name].acceptedKeys else Undefined)
  }

  /** `createFileUploader(upload)(name)(config)`: multer's `fields` for a
      truthy `acceptFiles`, else a handler that only calls `next()`. An
      absent multer instance makes the first branch throw. */
  function CreateFileUploader(upload: Option<Multer>, name: Op, config: SchemasConfig): (r: Completion<Handler>)
    ensures r == Normal(PassThrough) <==> !Truthy(AcceptFiles(config, name))
    ensures r.Throw? <==> Truthy(AcceptFiles(config, name)) && upload.None?
    ensures Truthy(AcceptFiles(config, name)) && upload.Some? ==>
      r == Normal(MulterFields(upload.value, AcceptedKeys(config, name)))
  {
    if Truthy(AcceptFiles(config, name)) then
      match upload
      case None => Throw(TypeError("Cannot read properties of undefined (reading 'fields')"))
      case Some(u) => Normal(MulterFields(u, AcceptedKeys(config, name)))
    else
      Normal(PassThrough)
  }

  // -----------------------------------------------------------------------
  // Query planning
  // -----------------------------------------------------------------------

  /** `['*']`, the fallback projection of the two reads. */
  const AllColumns := Arr([Str("*")])

  /** `keys || config.keys || ['*']`, with `keys` from the query string. */
  function Projection(config: SchemasConfig, req: Request): (r: Value)
    ensures Truthy(r)
    ensures Truthy(Get(req.query, "keys")) ==> r == Get(req.query, "keys")
    ensures !Truthy(Get(req.query, "keys")) && Truthy(config.keys) ==> r == config.keys
    ensures !Truthy(Get(req.query, "keys")) && !Truthy(config.keys) ==> r == AllColumns
  {
    Or(Get(req.query, "keys"), Or(config.keys, AllColumns))
  }

  /** `config.keys || '*'`, the `returning` of the three writes. */
  function Returning(config: SchemasConfig): (r: Value)
    ensures Truthy(r)
    ensures Truthy(config.keys) ==> r == config.keys
    ensures !Truthy(config.keys) ==> r == Str("*")
  {
    Or(config.keys, Str("*"))
  }

  /** What a handler validates: `req.body` for create and update,
      `req.query` for the others. */
  function ValidatedInput(op: Op, req: Request): Value {
    if op == Create || op == Update then req.body else Obj(req.query)
  }

  /** `if (config[op]) { validate(input, config[op]) }`. */
  function Validation(config: SchemasConfig, op: Op, req: Request, validate: Validator): Completion<bool> {
    if op in config.schemas then ValidateSchema(validate(ValidatedInput(op, req), config.schemas[op]))
    else Normal(true)
  }

  /** `config.formatters[op] || {}`; reading it off a missing `formatters`
      throws. */
  function FormattersFor(config: SchemasConfig, op: Op): (r: Completion<Formatters>)
    ensures r.Throw? <==> config.formatters.None?
    ensures r.Normal? && op in config.formatters.value ==> r.value == config.formatters.value[op]
    ensures r.Normal? && op !in config.formatters.value ==> r.value.input.None? && r.value.output.None?
  {
    match config.formatters
    case None => Throw(TypeError("Cannot read properties of undefined (reading '" + OpName(op) + "')"))
    case Some(m) => Normal(if op in m then m[op] else Formatters(None, None))
  }

  /** `const { db } = req.context`. */
  function ContextOf(req: Request): Completion<Context> {
    match req.context
    case None => Throw(TypeError("Cannot destructure property 'db' of 'req.context' as it is undefined."))
    case Some(c) => Normal(c)
  }

  /** `await (formatters.input || always)(req)`: with no input formatter
      the value is `always(req)`, a function, not the request. */
  function FormatInput(f: Formatters, req: Request): Completion<Value> {
    match f.input
    case None => Normal(ConstFn(Req(req)))
    case Some(g) => g(req)
  }

  /** `await (formatters.output || always)(item)`. */
  function FormatOutput(output: Option<OutputFormatter>, item: Value): Completion<Value> {
    match output
    case None => Normal(ConstFn(item))
    case Some(g) => g(item)
  }

  /** A query to issue, and the output formatter that will see its first row. */
  datatype Planned = Planned(query: Query, output: Option<OutputFormatter>)

  /** Everything a handler does before awaiting the database, in the
      source's order. A throw here means no query is issued. */
  function Plan(config: SchemasConfig, domain: string, op: Op, req: Request, validate: Validator): Completion<Planned> {
    var valid :- Validation(config, op, req, validate);
    match op
    case ReadMany =>
      var ctx :- ContextOf(req);
      Normal(Planned(SelectRows(domain, None, Projection(config, req), Some(Limit(req.query)), Some(Offset(req.query))), None))
    case Create =>
      var f :- FormattersFor(config, Create);
      var ctx :- ContextOf(req);
      var input :- FormatInput(f, req);
      Normal(Planned(InsertRow(domain, input, Returning(config)), f.output))
    case ReadOne =>
      var f :- FormattersFor(config, ReadOne);
      var ctx :- ContextOf(req);
      Normal(Planned(SelectRows(domain, Some(IdFilter(req)), Projection(config, req), Some(Limit(req.query)), Some(Offset(req.query))), f.output))
    case Update =>
      var ctx :- ContextOf(req);
      var f :- FormattersFor(config, Update);
      var input :- FormatInput(f, req);
      Normal(Planned(UpdateRows(domain, Some(IdFilter(req)), input, Returning(config)), f.output))
    case Destroy =>
      var f :- FormattersFor(config, Destroy);
      var ctx :- ContextOf(req);
      Normal(Planned(DeleteRows(domain, Some(IdFilter(req)), Returning(config)), f.output))
  }

  /** What the handler stages once the database has answered: readMany the
      raw list, the others their output formatter applied to the first row. */
  function Stage(op: Op, output: Option<OutputFormatter>, answer: Completion<seq<Value>>): Completion<Value> {
    var rows :- answer;
    if op == ReadMany then Normal(Arr(rows)) else FormatOutput(output, First(rows))
  }

  /** One run of a handler: the query it issued, if any, and what it staged
      (or threw). */
  datatype Outcome = Outcome(issued: Option<Query>, staged: Completion<Value>)

  function Run(config: SchemasConfig, domain: string, op: Op, req: Request, validate: Validator, db: Backend): (r: Outcome)
    ensures r.issued.None? ==> r.staged.Throw?
  {
    match Plan(config, domain, op, req, validate)
    case Throw(e) => Outcome(None, Throw(e))
    case Normal(p) => Outcome(Some(p.query), Stage(op, p.output, db(p.query)))
  }

  /** A handler: it stages its result in `res.locals.data` and calls
      `next()`, or leaves `res.locals` alone and calls `next(e)`. */
  method Handle(config: SchemasConfig, domain: string, op: Op, req: Request, validate: Validator, db: Backend, res: Response)
    returns (issued: Option<Query>, next: NextCall)
    modifies res
    ensures var r := Run(config, domain, op, req, validate, db);
      && issued == r.issued
      && (r.staged.Normal? ==> next == Next && res.locals == old(res.locals).(data := r.staged.value))
      && (r.staged.Throw? ==> next == NextWith(r.staged.thrown) && res.locals == old(res.locals))
  {
    var plan := Plan(config, domain, op, req, validate);
    if plan.Throw? {
      return None, NextWith(plan.thrown);
    }
    issued := Some(plan.value.query);
    var staged := Stage(op, plan.value.output, db(plan.value.query));
    if staged.Throw? {
      return issued, NextWith(staged.thrown);
    }
    res.locals := res.locals.(data := staged.value);
    next := Next;
  }

  // -----------------------------------------------------------------------
  // What the handlers promise
  // -----------------------------------------------------------------------

  /** A failed validation throws the validator's 400 error before any
      query: nothing is issued and nothing is staged. */
  lemma ValidationFailureShortCircuits(config: SchemasConfig, domain: string, op: Op, req: Request, validate: Validator, db: Backend)
    requires op in config.schemas
    requires |validate(ValidatedInput(op, req), config.schemas[op])| > 0
    ensures var r := Run(config, domain, op, req, validate, db);
      && r.issued.None?
      && r.staged == Throw(ValidateSchema(validate(ValidatedInput(op, req), config.schemas[op])).thrown)
      && r.staged.thrown.status == Num(400)
  {
  }

  /** Without a schema for the operation the validator is never consulted. */
  lemma NoSchemaNoValidation(config: SchemasConfig, domain: string, op: Op, req: Request, v1: Validator, v2: Validator, db: Backend)
    requires op !in config.schemas
    ensures Run(config, domain, op, req, v1, db) == Run(config, domain, op, req, v2, db)
  {
  }

  /** The validator sees `req.body` for create and update and `req.query`
      for the others: two validators that agree on that payload give the
      same run. */
  lemma ValidatorSeesOnlyItsPayload(config: SchemasConfig, domain: string, op: Op, req: Request, v1: Validator, v2: Validator, db: Backend)
    requires op in config.schemas
    requires v1(ValidatedInput(op, req), config.schemas[op]) == v2(ValidatedInput(op, req), config.schemas[op])
    ensures ValidatedInput(op, req) == (if op in {Create, Update} then req.body else Obj(req.query))
    ensures Run(config, domain, op, req, v1, db) == Run(config, domain, op, req, v2, db)
  {
  }

  /** The two reads project `query.keys`, else `config.keys`, else `['*']`,
      and page with `limit` (default 50) and `offset` (default 0). readOne
      filters on `{id}`; readMany has no filter. */
  lemma ReadsProjectAndPage(config: SchemasConfig, domain: string, op: Op, req: Request, validate: Validator)
    requires op == ReadMany || op == ReadOne
    requires Plan(config, domain, op, req, validate).Normal?
    ensures var q := Plan(config, domain, op, req, validate).value.query;
      && q == SelectRows(domain, if op == ReadOne then Some(IdFilter(req)) else None,
                     Projection(config, req), Some(Limit(req.query)), Some(Offset(req.query)))
      && (op == ReadMany ==> Plan(config, domain, op, req, validate).value.output.None?)
  {
  }

  /** create, update and destroy return `config.keys || '*'` whatever the
      query string says; update and destroy filter on `{id}`. */
  lemma WritesReturnConfiguredKeys(config: SchemasConfig, domain: string, op: Op, req: Request, validate: Validator)
    requires op == Create || op == Update || op == Destroy
    requires Plan(config, domain, op, req, validate).Normal?
    ensures var q := Plan(config, domain, op, req, validate).value.query;
      && q.table == domain
      && q.returning == Returning(config)
      && (op == Create ==> q.InsertRow?)
      && (op == Update ==> q.UpdateRows? && q.filter == Some(IdFilter(req)))
      && (op == Destroy ==> q.DeleteRows? && q.filter == Some(IdFilter(req)))
  {
  }

  /** readOne, update and destroy stage only the first row; when there is
      none the formatter sees `undefined` and no error is raised. */
  lemma FirstRowOnly(op: Op, output: Option<OutputFormatter>, rows: seq<Value>)
    requires op != ReadMany
    ensures Stage(op, output, Normal(rows)) == FormatOutput(output, First(rows))
    ensures rows == [] && output.None? ==> Stage(op, output, Normal(rows)) == Normal(ConstFn(Undefined))
  {
  }

  /** readMany stages the raw list of rows; no formatter is consulted,
      so even a missing `formatters` object does no harm. */
  lemma ReadManyStagesRawList(config: SchemasConfig, domain: string, req: Request, validate: Validator, db: Backend)
    requires Plan(config, domain, ReadMany, req, validate).Normal?
    requires db(Plan(config, domain, ReadMany, req, validate).value.query).Normal?
    ensures var q := Plan(config, domain, ReadMany, req, validate).value.query;
      Run(config, domain, ReadMany, req, validate, db) == Outcome(Some(q), Normal(Arr(db(q).value)))
    ensures Plan(config.(formatters := None), domain, ReadMany, req, validate) == Plan(config, domain, ReadMany, req, validate)
  {
  }

  /** With no output formatter configured, the staged value is `always(row)`
      — a constant function — and never the row itself. */
  lemma UnformattedOutputIsAlways(config: SchemasConfig, domain: string, op: Op, req: Request, validate: Validator, db: Backend)
    requires op != ReadMany
    requires config.formatters.Some? && op !in config.formatters.value
    requires Plan(config, domain, op, req, validate).Normal?
    requires db(Plan(config, domain, op, req, validate).value.query).Normal?
    ensures var q := Plan(config, domain, op, req, validate).value.query;
      var staged := Run(config, domain, op, req, validate, db).staged;
      && staged == Normal(ConstFn(First(db(q).value)))
      && staged != Normal(First(db(q).value))
  {
    var q := Plan(config, domain, op, req, validate).value.query;
    var item := First(db(q).value);
    assert item < ConstFn(item);
  }

  /** A configured output formatter receives the first row the database
      returned, and what it yields (or throws) is what is staged. */
  lemma ConfiguredOutputFormatterApplied(config: SchemasConfig, domain: string, op: Op, req: Request,
                                         validate: Validator, db: Backend, g: OutputFormatter)
    requires op != ReadMany
    requires config.formatters.Some? && op in config.formatters.value
    requires config.formatters.value[op].output == Some(g)
    requires Plan(config, domain, op, req, validate).Normal?
    requires db(Plan(config, domain, op, req, validate).value.query).Normal?
    ensures var q := Plan(config, domain, op, req, validate).value.query;
      Run(config, domain, op, req, validate, db).staged == g(First(db(q).value))
  {
  }

  /** With no input formatter, what create and update write is `always(req)`,
      a function holding the whole request, not the request body. */
  lemma UnformattedInputIsAlways(config: SchemasConfig, domain: string, op: Op, req: Request, validate: Validator)
    requires op == Create || op == Update
    requires config.formatters.Some? && op !in config.formatters.value
    requires Plan(config, domain, op, req, validate).Normal?
    ensures Plan(config, domain, op, req, validate).value.query.payload == ConstFn(Req(req))
  {
  }

  /** An input formatter receives the whole request. What it returns is the
      payload written; if it throws, no query is issued and the error goes
      to `next`. */
  lemma InputFormatterSeesRequest(config: SchemasConfig, domain: string, op: Op, req: Request, validate: Validator, db: Backend, g: InputFormatter)
    requires op == Create || op == Update
    requires Validation(config, op, req, validate).Normal? && req.context.Some?
    requires config.formatters.Some? && op in config.formatters.value
    requires config.formatters.value[op].input == Some(g)
    ensures g(req).Normal? ==> Plan(config, domain, op, req, validate).value.query.payload == g(req).value
    ensures g(req).Throw? ==> Run(config, domain, op, req, validate, db) == Outcome(None, Throw(g(req).thrown))
  {
  }

  /** A missing `formatters` object makes every handler but readMany throw
      after validation, before any query, and the error goes to `next`. */
  lemma MissingFormattersThrow(config: SchemasConfig, domain: string, op: Op, req: Request, validate: Validator, db: Backend)
    requires op != ReadMany
    requires config.formatters.None?
    requires Validation(config, op, req, validate).Normal?
    ensures var r := Run(config, domain, op, req, validate, db);
      r.issued.None? && r.staged.Throw? && r.staged.thrown.name == "TypeError"
  {
    assert FormattersFor(config, op).Throw?;
  }

  // -----------------------------------------------------------------------
  // The route table
  // -----------------------------------------------------------------------

  function ReadManyRoute(domain: string): Layer {
    Endpoint(GET, "/", [Operation(domain, ReadMany)])
  }
  function CreateRoute(domain: string, gate: Handler): Layer {
    Endpoint(POST, "/", [JsonParser, UrlencodedParser(true), gate, Operation(domain, Create)])
  }
  function ReadOneRoute(domain: string): Layer {
    Endpoint(GET, "/:id", [Operation(domain, ReadOne)])
  }
  function UpdateRoute(domain: string, gate: Handler): Layer {
    Endpoint(PATCH, "/:id", [JsonParser, UrlencodedParser(true), gate, Operation(domain, Update)])
  }
  function DestroyRoute(domain: string): Layer {
    Endpoint(DELETE, "/:id", [Operation(domain, Destroy)])
  }

  /** The five routes of a domain, given its two upload gates. */
  function RouteTable(domain: string, createGate: Handler, updateGate: Handler): seq<Layer> {
    [ReadManyRoute(domain), CreateRoute(domain, createGate), ReadOneRoute(domain),
     UpdateRoute(domain, updateGate), DestroyRoute(domain)]
  }

  /** The routes `applyHandlers` registers, or what building the gates throws. */
  function DomainRoutes(config: SchemasConfig, domain: string, upload: Option<Multer>): Completion<seq<Layer>> {
    var createGate :- CreateFileUploader(upload, Create, config);
    var updateGate :- CreateFileUploader(upload, Update, config);
    Normal(RouteTable(domain, createGate, updateGate))
  }

  /** The operation behind a verb and a path of the table, if any. */
  function Dispatch(routes: seq<Layer>, verb: Verb, path: string): Option<Op> {
    if |routes| == 0 then None
    else if routes[0].Endpoint? && routes[0].verb == verb && routes[0].path == path
         && |routes[0].handlers| > 0 && routes[0].handlers[|routes[0].handlers| - 1].Operation?
    then Some(routes[0].handlers[|routes[0].handlers| - 1].op)
    else Dispatch(routes[1..], verb, path)
  }

  /** GET / is readMany, POST / create, GET /:id readOne, PATCH /:id update,
      DELETE /:id destroy; nothing else is routed. The two writes parse JSON
      and urlencoded bodies, then pass the upload gate, before the handler. */
  lemma {:induction false} RouteTableDispatch(config: SchemasConfig, domain: string, upload: Option<Multer>, verb: Verb, path: string)
    requires DomainRoutes(config, domain, upload).Normal?
    ensures var routes := DomainRoutes(config, domain, upload).value;
      && Dispatch(routes, verb, path) ==
        (if verb == GET && path == "/" then Some(ReadMany)
         else if verb == POST && path == "/" then Some(Create)
         else if verb == GET && path == "/:id" then Some(ReadOne)
         else if verb == PATCH && path == "/:id" then Some(Update)
         else if verb == DELETE && path == "/:id" then Some(Destroy)
         else None)
      && routes[1].handlers[..2] == [JsonParser, UrlencodedParser(true)]
      && routes[1].handlers[2] == CreateFileUploader(upload, Create, config).value
      && routes[3].handlers[..2] == [JsonParser, UrlencodedParser(true)]
      && routes[3].handlers[2] == CreateFileUploader(upload, Update, config).value
  {
    var routes := DomainRoutes(config, domain, upload).value;
    assert routes[4..][1..] == [];
    assert Dispatch(routes[4..], verb, path) ==
      (if verb == DELETE && path == "/:id" then Some(Destroy) else None);
    assert routes[3..][1..] == routes[4..];
    assert Dispatch(routes[3..], verb, path) ==
      (if verb == PATCH && path == "/:id" then Some(Update) else Dispatch(routes[4..], verb, path));
    assert routes[2..][1..] == routes[3..];
    assert Dispatch(routes[2..], verb, path) ==
      (if verb == GET && path == "/:id" then Some(ReadOne) else Dispatch(routes[3..], verb, path));
    assert routes[1..][1..] == routes[2..];
    assert Dispatch(routes[1..], verb, path) ==
      (if verb == POST && path == "/" then Some(Create) else Dispatch(routes[2..], verb, path));
  }

  /** `applyHandlers`: registers the five routes on `router` by chained
      calls. Building the create gate throws after GET / is registered,
      building the update gate after GET /:id is. */
  method ApplyHandlers(config: SchemasConfig, domain: string, router: Router, upload: Option<Multer>)
    returns (r: Completion<Router>)
    modifies router
    ensures r.Normal? <==> DomainRoutes(config, domain, upload).Normal?
    ensures r.Normal? ==> r.value == router && router.stack == old(router.stack) + DomainRoutes(config, domain, upload).value
    ensures r.Throw? ==> r.thrown == DomainRoutes(config, domain, upload).thrown
    ensures CreateFileUploader(upload, Create, config).Throw? ==>
      router.stack == old(router.stack) + [ReadManyRoute(domain)]
    ensures CreateFileUploader(upload, Create, config).Normal? && CreateFileUploader(upload, Update, config).Throw? ==>
      router.stack == old(router.stack) + [ReadManyRoute(domain), CreateRoute(domain, CreateFileUploader(upload, Create, config).value), ReadOneRoute(domain)]
  {
    router.AddRoute(GET, "/", [Operation(domain, ReadMany)]);
    var createGate := CreateFileUploader(upload, Create, config);
    if createGate.Throw? {
      return Throw(createGate.thrown);
    }
    router.AddRoute(POST, "/", [JsonParser, UrlencodedParser(true), createGate.value, Operation(domain, Create)]);
    router.AddRoute(GET, "/:id", [Operation(domain, ReadOne)]);
    var updateGate := CreateFileUploader(upload, Update, config);
    if updateGate.Throw? {
      return Throw(updateGate.thrown);
    }
    router.AddRoute(PATCH, "/:id", [JsonParser, UrlencodedParser(true), updateGate.value, Operation(domain, Update)]);
    router.AddRoute(DELETE, "/:id", [Operation(domain, Destroy)]);
    return Normal(router);
  }

  /** `createDomainFromConfig`: a fresh router with the domain's routes. */
  method CreateDomainFromConfig(config: DomainConfig, domain: string, upload: Option<Multer>)
    returns (r: Completion<Router>)
    ensures r.Normal? <==> DomainRoutes(config.schemas, domain, upload).Normal?
    ensures r.Normal? ==> fresh(r.value) && r.value.stack == DomainRoutes(config.schemas, domain, upload).value
    ensures r.Throw? ==> r.thrown == DomainRoutes(config.schemas, domain, upload).thrown
  {
    var router := new Router();
    r := ApplyHandlers(config.schemas, domain, router, upload);
  }

  // -----------------------------------------------------------------------
  // The API router
  // -----------------------------------------------------------------------

  /** The stack `createAPI` builds for `domains`, or the first throw. */
  function ApiLayers(domains: Domains, upload: Option<Multer>): Completion<seq<Layer>>
    decreases |domains|
  {
    if |domains| == 0 then Normal([])
    else
      var n := |domains| - 1;
      var before :- ApiLayers(domains[..n], upload);
      var routes :- DomainRoutes(domains[n].1.schemas, domains[n].0, upload);
      Normal(before + [Mounted("/" + domains[n].0, routes)])
  }

  /** Once a prefix of the domains throws, the whole API throws the same. */
  lemma {:induction false} ApiLayersKeepsFirstThrow(domains: Domains, upload: Option<Multer>, k: nat)
    requires k <= |domains|
    requires ApiLayers(domains[..k], upload).Throw?
    ensures ApiLayers(domains, upload) == ApiLayers(domains[..k], upload)
    decreases |domains| - k
  {
    if k < |domains| {
      var n := |domains| - 1;
      assert domains[..n][..k] == domains[..k];
      ApiLayersKeepsFirstThrow(domains[..n], upload, k);
      assert domains[..|domains|] == domains;
    } else {
      assert domains[..k] == domains;
    }
  }

  /** `createAPI` mounts one router per domain, at `/<domain>`, in the order
      of the entries. */
  lemma {:induction false} ApiMountsEachDomain(domains: Domains, upload: Option<Multer>)
    requires ApiLayers(domains, upload).Normal?
    ensures var api := ApiLayers(domains, upload).value;
      && |api| == |domains|
      && forall i :: 0 <= i < |domains| ==>
           DomainRoutes(domains[i].1.schemas, domains[i].0, upload).Normal?
           && api[i] == Mounted("/" + domains[i].0, DomainRoutes(domains[i].1.schemas, domains[i].0, upload).value)
    decreases |domains|
  {
    if |domains| > 0 {
      var n := |domains| - 1;
      ApiMountsEachDomain(domains[..n], upload);
      var before := ApiLayers(domains[..n], upload).value;
      assert ApiLayers(domains, upload).value
          == before + [Mounted("/" + domains[n].0, DomainRoutes(domains[n].1.schemas, domains[n].0, upload).value)];
      forall i | 0 <= i < n
        ensures domains[i] == domains[..n][i]
      {
      }
    }
  }

  /** Whether a domain asks for file uploads on create or update. */
  predicate AcceptsFiles(config: SchemasConfig) {
    Truthy(AcceptFiles(config, Create)) || Truthy(AcceptFiles(config, Update))
  }

  /** With a multer instance the API always builds; without one it throws
      exactly when some domain asks for file uploads. */
  lemma {:induction false} ApiBuildsUnlessUploadMissing(domains: Domains, upload: Option<Multer>)
    ensures upload.Some? ==> ApiLayers(domains, upload).Normal?
    ensures upload.None? ==>
      (ApiLayers(domains, upload).Throw? <==> exists i :: 0 <= i < |domains| && AcceptsFiles(domains[i].1.schemas))
    decreases |domains|
  {
    if |domains| > 0 {
      var n := |domains| - 1;
      ApiBuildsUnlessUploadMissing(domains[..n], upload);
      if upload.None? && ApiLayers(domains, upload).Throw? && ApiLayers(domains[..n], upload).Throw? {
        var i :| 0 <= i < n && AcceptsFiles(domains[..n][i].1.schemas);
        assert domains[..n][i] == domains[i];
      }
      if upload.None? && (exists i :: 0 <= i < |domains| && AcceptsFiles(domains[i].1.schemas)) {
        var i :| 0 <= i < |domains| && AcceptsFiles(domains[i].1.schemas);
        if i < n {
          assert domains[..n][i] == domains[i];
        }
      }
    }
  }

  /** `createAPI`: for each entry, mount the domain's router at `/<domain>`. */
  method CreateAPI(domains: Domains, upload: Option<Multer>) returns (r: Completion<Router>)
    ensures r.Normal? <==> ApiLayers(domains, upload).Normal?
    ensures r.Normal? ==> fresh(r.value) && r.value.stack == ApiLayers(domains, upload).value
    ensures r.Throw? ==> r == Throw(ApiLayers(domains, upload).thrown)
  {
    var api := new Router();
    var i := 0;
    while i < |domains|
      invariant 0 <= i <= |domains|
      invariant fresh(api)
      invariant ApiLayers(domains[..i], upload) == Normal(api.stack)
    {
      var sub := CreateDomainFromConfig(domains[i].1, domains[i].0, upload);
      assert domains[..i + 1][..i] == domains[..i];
      if sub.Throw? {
        ApiLayersKeepsFirstThrow(domains, upload, i + 1);
        return Throw(sub.thrown);
      }
      api.UseRouter("/" + domains[i].0, sub.value.stack);
      i := i + 1;
    }
    assert domains[..i] == domains;
    return Normal(api);
  }
}
