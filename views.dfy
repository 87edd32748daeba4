/** Server-rendered CRUD pages (src/views.ts): five GET routes per domain,
    each rendering a template with a fallback, and the render data the
    pages hand to the template engine. Rendering itself is foreign: a page
    yields the template name and the data it would render. */
module Views {
  import opened Js
  import opened Config
  import opened QueryBuilder
  import opened Express

  /** The template a page uses when its view is not configured. */
  function DefaultTemplate(op: Op): string {
    match op
    case Create => "default_create"
    case ReadOne => "default_read_one"
    case ReadMany => "default_read_many"
    case Update => "default_update"
    case Destroy => "default_destroy"
  }

  /** `defaultCreate`, `defaultReadOne`, ...: a template and empty data. */
  function DefaultView(op: Op): ViewConfig {
    ViewConfig(DefaultTemplate(op), Obj(map[]))
  }

  /** `const { create = defaultCreate, ... } = config`. */
  function ResolveView(views: map<Op, ViewConfig>, op: Op): (v: ViewConfig)
    ensures op in views ==> v == views[op]
    ensures op !in views ==> v.data == Obj(map[]) && v.template == DefaultTemplate(op)
  {
    if op in views then views[op] else DefaultView(op)
  }

  /** The path of each page under `/<domain>`. */
  function PagePath(domain: string, op: Op): string {
    match op
    case Create => "/" + domain + "/create"
    case ReadMany => "/" + domain
    case ReadOne => "/" + domain + "/:id"
    case Update => "/" + domain + "/:id/edit"
    case Destroy => "/" + domain + "/:id/delete"
  }

  function PageRoute(domain: string, views: map<Op, ViewConfig>, op: Op): Layer {
    Endpoint(GET, PagePath(domain, op), [ViewPage(domain, op, ResolveView(views, op))])
  }

  /** The order `applyView` registers the pages in. */
  const PageOrder: seq<Op> := [Create, ReadMany, ReadOne, Update, Destroy]

  /** The five routes `applyView` registers for one domain. */
  function ViewRoutes(domain: string, views: map<Op, ViewConfig>): (r: seq<Layer>)
    ensures |r| == |PageOrder|
    ensures forall i :: 0 <= i < |PageOrder| ==> r[i] == PageRoute(domain, views, PageOrder[i])
  {
    seq(|PageOrder|, i requires 0 <= i < |PageOrder| => PageRoute(domain, views, PageOrder[i]))
  }

  /** The pages go in as create form, list, item, edit, delete: so
      `/<d>/create` is registered before `/<d>/:id` can claim it. Each page
      has one handler, serving its own operation with that operation's view
      (configured or default). */
  lemma ViewRouteOrder(domain: string, views: map<Op, ViewConfig>)
    ensures var r := ViewRoutes(domain, views);
      && (forall i :: 0 <= i < |r| ==> r[i].Endpoint? && r[i].verb == GET)
      && r[0].path == "/" + domain + "/create"
      && r[1].path == "/" + domain
      && r[2].path == "/" + domain + "/:id"
      && r[3].path == "/" + domain + "/:id/edit"
      && r[4].path == "/" + domain + "/:id/delete"
      && r[0].handlers == [ViewPage(domain, Create, ResolveView(views, Create))]
      && r[1].handlers == [ViewPage(domain, ReadMany, ResolveView(views, ReadMany))]
      && r[2].handlers == [ViewPage(domain, ReadOne, ResolveView(views, ReadOne))]
      && r[3].handlers == [ViewPage(domain, Update, ResolveView(views, Update))]
      && r[4].handlers == [ViewPage(domain, Destroy, ResolveView(views, Destroy))]
  {
    var r := ViewRoutes(domain, views);
    forall i | 0 <= i < |r|
      ensures r[i] == PageRoute(domain, views, PageOrder[i])
    {
    }
  }

  /** `applyView`: five `server.get` calls. */
  method ApplyView(server: App, domain: string, views: map<Op, ViewConfig>)
    modifies server
    ensures server.stack == old(server.stack) + ViewRoutes(domain, views)
    ensures server.settings == old(server.settings) && server.log == old(server.log) && server.db == old(server.db)
  {
    server.Get(PagePath(domain, Create), ViewPage(domain, Create, ResolveView(views, Create)));
    server.Get(PagePath(domain, ReadMany), ViewPage(domain, ReadMany, ResolveView(views, ReadMany)));
    server.Get(PagePath(domain, ReadOne), ViewPage(domain, ReadOne, ResolveView(views, ReadOne)));
    server.Get(PagePath(domain, Update), ViewPage(domain, Update, ResolveView(views, Update)));
    server.Get(PagePath(domain, Destroy), ViewPage(domain, Destroy, ResolveView(views, Destroy)));
  }

  /** Destructuring a missing `views` object throws. */
  const MissingViews := TypeError("Cannot destructure property 'create' of 'config' as it is undefined.")

  /** The routes `createViews` adds for `domains`, or the throw of the first
      domain without views. */
  function ViewLayers(domains: Domains): Completion<seq<Layer>>
    decreases |domains|
  {
    if |domains| == 0 then Normal([])
    else
      var n := |domains| - 1;
      var before :- ViewLayers(domains[..n]);
      match domains[n].1.views
      case None => Throw(MissingViews)
      case Some(views) => Normal(before + ViewRoutes(domains[n].0, views))
  }

  /** The views build exactly when every domain has a `views` object; then
      each domain contributes its five routes, in the order of the entries. */
  lemma {:induction false} ViewLayersPerDomain(domains: Domains)
    ensures ViewLayers(domains).Normal? <==> forall i :: 0 <= i < |domains| ==> domains[i].1.views.Some?
    ensures ViewLayers(domains).Throw? ==> ViewLayers(domains).thrown == MissingViews
    ensures ViewLayers(domains).Normal? ==>
      var all := ViewLayers(domains).value;
      && |all| == 5 * |domains|
      && forall i :: 0 <= i < |domains| ==>
           all[5 * i..5 * i + 5] == ViewRoutes(domains[i].0, domains[i].1.views.value)
    decreases |domains|
  {
    if |domains| > 0 {
      var n := |domains| - 1;
      ViewLayersPerDomain(domains[..n]);
      if ViewLayers(domains[..n]).Throw? {
        var i :| 0 <= i < n && domains[..n][i].1.views.None?;
        assert domains[..n][i] == domains[i];
      }
      if ViewLayers(domains).Normal? {
        var before := ViewLayers(domains[..n]).value;
        var all := ViewLayers(domains).value;
        forall i | 0 <= i < |domains|
          ensures all[5 * i..5 * i + 5] == ViewRoutes(domains[i].0, domains[i].1.views.value)
        {
          if i < n {
            assert domains[..n][i] == domains[i];
            assert all[5 * i..5 * i + 5] == before[5 * i..5 * i + 5];
          } else {
            assert all[5 * i..5 * i + 5] == all[|before|..];
          }
        }
      }
    }
  }

  /** One more domain with views adds its five routes. */
  lemma ViewLayersStep(domains: Domains, i: nat)
    requires i < |domains| && domains[i].1.views.Some? && ViewLayers(domains[..i]).Normal?
    ensures ViewLayers(domains[..i + 1])
         == Normal(ViewLayers(domains[..i]).value + ViewRoutes(domains[i].0, domains[i].1.views.value))
  {
    assert domains[..i + 1][..i] == domains[..i];
  }

  /** A domain without `views` makes the whole views build throw. */
  lemma MissingViewsThrow(domains: Domains, k: nat)
    requires k < |domains| && domains[k].1.views.None?
    ensures ViewLayers(domains) == Throw(MissingViews)
  {
    ViewLayersPerDomain(domains);
  }

  /** `server.set('views', templateDir)` and `server.set('view engine',
      templateType)`, with the parameter defaults './views' and 'pug' for an
      undefined argument. */
  function ViewSettings(templateDir: Option<string>, templateType: Option<string>): (r: map<string, string>)
    ensures r.Keys == {"views", "view engine"}
    ensures r["views"] == (if templateDir.Some? then templateDir.value else "./views")
    ensures r["view engine"] == (if templateType.Some? then templateType.value else "pug")
  {
    map["views" := match templateDir case Some(d) => d case None => "./views",
        "view engine" := match templateType case Some(t) => t case None => "pug"]
  }

  /** `createViews`: set the engine, then apply each domain's views in the
      order of the entries. A domain without `views` throws after the
      domains before it have been registered. */
  method CreateViews(server: App, domains: Domains, templateDir: Option<string>, templateType: Option<string>)
    returns (r: Completion<App>)
    modifies server
    ensures server.settings == old(server.settings) + ViewSettings(templateDir, templateType)
    ensures server.log == old(server.log) && server.db == old(server.db)
    ensures r.Normal? <==> ViewLayers(domains).Normal?
    ensures r.Normal? ==> r.value == server && server.stack == old(server.stack) + ViewLayers(domains).value
    ensures r.Throw? ==> r.thrown == MissingViews
    ensures r.Throw? ==> exists k :: (0 <= k < |domains|
      && domains[k].1.views.None?
      && ViewLayers(domains[..k]).Normal?
      && server.stack == old(server.stack) + ViewLayers(domains[..k]).value)
  {
    server.Set("views", match templateDir case Some(d) => d case None => "./views");
    server.Set("view engine", match templateType case Some(t) => t case None => "pug");
    assert server.settings == old(server.settings) + ViewSettings(templateDir, templateType);
    var i := 0;
    ghost var added: seq<Layer> := [];
    while i < |domains|
      invariant 0 <= i <= |domains|
      invariant server.settings == old(server.settings) + ViewSettings(templateDir, templateType)
      invariant server.log == old(server.log) && server.db == old(server.db)
      invariant ViewLayers(domains[..i]) == Normal(added)
      invariant server.stack == old(server.stack) + added
    {
      match domains[i].1.views {
        case None =>
          MissingViewsThrow(domains, i);
          return Throw(MissingViews);
        case Some(views) =>
          ApplyView(server, domains[i].0, views);
          ViewLayersStep(domains, i);
          AppendAssoc(old(server.stack), added, ViewRoutes(domains[i].0, views));
          added := added + ViewRoutes(domains[i].0, views);
      }
      i := i + 1;
    }
    assert domains[..i] == domains;
    return Normal(server);
  }

  // -----------------------------------------------------------------------
  // Serving a page
  // -----------------------------------------------------------------------

  /** What a page renders, or the error it hands to `next`. */
  datatype ViewOutcome = Rendered(template: string, data: Value) | Forwarded(err: Value)

  /** The query a page awaits: none for the create form, all columns with
      paging for the list, all columns of the row `{id}` for the others. */
  function ViewQuery(domain: string, op: Op, req: Request): (r: Option<Query>)
    ensures r.None? <==> op == Create
    ensures r.Some? ==> r.value.SelectRows? && r.value.table == domain && r.value.columns == Str("*")
    ensures op == ReadMany ==>
      r.value.filter.None? && r.value.limit == Some(Limit(req.query)) && r.value.offset == Some(Offset(req.query))
    ensures op in {ReadOne, Update, Destroy} ==>
      r.value.filter == Some(IdFilter(req)) && r.value.limit.None? && r.value.offset.None?
  {
    match op
    case Create => None
    case ReadMany => Some(SelectRows(domain, None, Str("*"), Some(Limit(req.query)), Some(Offset(req.query))))
    case _ => Some(SelectRows(domain, Some(IdFilter(req)), Str("*"), None, None))
  }

  /** The key the fetched rows go under: `list` or `item`. */
  function Slot(op: Op): string {
    if op == ReadMany then "list" else "item"
  }

  /** The data a page renders: `propOr({}, 'data', view)` for the create
      form, `{ list, ...data }` or `{ item, ...data }` for the others, the
      configured data spread last. */
  function RenderData(op: Op, view: ViewConfig, rows: seq<Value>): (r: Value)
    ensures var data := PathOr(Obj(map[]), view.data);
      && (op == Create ==> r == data)
      && (op != Create ==> r.Obj? && r.props.Keys == {Slot(op)} + Spread(data).Keys)
      && (op != Create ==> forall k :: k in Spread(data) ==> r.props[k] == Spread(data)[k])
      && (op != Create && Slot(op) !in Spread(data) ==>
            r.props[Slot(op)] == if op == ReadMany then Arr(rows) else First(rows))
  {
    var data := PathOr(Obj(map[]), view.data);
    match op
    case Create => data
    case ReadMany => Obj(map["list" := Arr(rows)] + Spread(data))
    case _ => Obj(map["item" := First(rows)] + Spread(data))
  }

  /** One request to a page. */
  function ServeView(domain: string, op: Op, view: ViewConfig, req: Request, db: Backend): (r: ViewOutcome)
    ensures op == Create ==> r == Rendered(view.template, RenderData(Create, view, []))
    ensures op != Create && req.context.Some? && db(ViewQuery(domain, op, req).value).Normal? ==>
      r == Rendered(view.template, RenderData(op, view, db(ViewQuery(domain, op, req).value).value))
    ensures op != Create && req.context.Some? && db(ViewQuery(domain, op, req).value).Throw? ==>
      r == Forwarded(db(ViewQuery(domain, op, req).value).thrown)
    ensures op != Create && req.context.None? ==> r.Forwarded?
  {
    if op == Create then Rendered(view.template, RenderData(Create, view, []))
    else if req.context.None? then
      Forwarded(TypeError("Cannot destructure property 'db' of 'req.context' as it is undefined."))
    else
      match db(ViewQuery(domain, op, req).value)
      case Throw(e) => Forwarded(e)
      case Normal(rows) => Rendered(view.template, RenderData(op, view, rows))
  }

  /** A page with no configured view renders its default template with the
      fetched rows alone; a missing row renders as `item: undefined`. */
  lemma UnconfiguredPage(domain: string, op: Op, views: map<Op, ViewConfig>, req: Request, db: Backend)
    requires op != Create && op !in views && req.context.Some?
    requires db(ViewQuery(domain, op, req).value) == Normal([])
    ensures ServeView(domain, op, ResolveView(views, op), req, db) ==
      Rendered(DefaultTemplate(op), Obj(map[Slot(op) := if op == ReadMany then Arr([]) else Undefined]))
  {
    var v := ResolveView(views, op);
    assert Spread(PathOr(Obj(map[]), v.data)) == map[];
    assert map[Slot(op) := (if op == ReadMany then Arr([]) else Undefined)] + map[]
        == map[Slot(op) := if op == ReadMany then Arr([]) else Undefined];
  }
}
