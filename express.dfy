/** The slice of Express the server builds on: middleware and routes are
    registered into an ordered stack, and each request carries a
    `res.locals` staging record from the handler to the finalizer. Handlers
    appear as tags: what a tag does is given by the module that defines the
    handler. */
module Express {
  import opened Js
  import opened Config

  datatype Verb = GET | POST | PATCH | DELETE

  /** A multer instance, created by the caller. */
  datatype Multer = Multer(id: nat)

  /** A request handler, named by what it is. */
  datatype Handler =
    | ContextSetter(context: Context)                 // setContext's middleware
    | Morgan(format: string)
    | Cors
    | Helmet
    | User(name: string)                              // made by a caller-supplied factory
    | JsonParser                                      // bodyParser.json()
    | UrlencodedParser(extended: bool)                // bodyParser.urlencoded(...)
    | MulterFields(upload: Multer, fields: Value)     // upload.fields(fields)
    | PassThrough                                     // (_, __, next) => next()
    | Operation(domain: string, op: Op)               // one of the five CRUD handlers
    | ViewPage(domain: string, op: Op, view: ViewConfig)
    | SuccessFinalizer                                // defaultSuccessHandler
    | ErrorFinalizer                                  // defaultErrorHandler

  /** One entry of a router's stack, in registration order. */
  datatype Layer =
    | Middleware(path: string, handler: Handler)      // use(handler)
    | Mounted(path: string, layers: seq<Layer>)       // use(path, router)
    | Endpoint(verb: Verb, path: string, handlers: seq<Handler>)

  /** `res.locals`: the per-request staging record. */
  datatype Locals = Locals(data: Value, error: Value, status: Value, meta: Value, links: Value)

  /** A fresh response's `res.locals` is `{}`. */
  const NoLocals := Locals(Undefined, Undefined, Undefined, Undefined, Undefined)

  /** How a handler hands on control: `next()` or `next(e)`. */
  datatype NextCall = Next | NextWith(err: Value)

  /** `express.Router()`. */
  class Router {
    var stack: seq<Layer>

    constructor ()
      ensures stack == []
    {
      stack := [];
    }

    /** `router.get/post/patch/delete(path, ...handlers)`. */
    method AddRoute(verb: Verb, path: string, handlers: seq<Handler>)
      modifies this
      ensures stack == old(stack) + [Endpoint(verb, path, handlers)]
    {
      stack := stack + [Endpoint(verb, path, handlers)];
    }

    /** `router.use(path, subRouter)`. */
    method UseRouter(path: string, layers: seq<Layer>)
      modifies this
      ensures stack == old(stack) + [Mounted(path, layers)]
    {
      stack := stack + [Mounted(path, layers)];
    }
  }

  /** `express()`, with the `log` and `db` properties `Object.assign` adds. */
  class App {
    var stack: seq<Layer>
    var settings: map<string, string>
    var log: Option<Logger>
    var db: Option<DbHandle>

    constructor ()
      ensures stack == [] && settings == map[] && log == None && db == None
    {
      stack, settings, log, db := [], map[], None, None;
    }

    /** `app.use(handler)`. */
    method Use(handler: Handler)
      modifies this
      ensures stack == old(stack) + [Middleware("/", handler)]
      ensures settings == old(settings) && log == old(log) && db == old(db)
    {
      stack := stack + [Middleware("/", handler)];
    }

    /** `app.use(path, router)`. */
    method UseRouter(path: string, layers: seq<Layer>)
      modifies this
      ensures stack == old(stack) + [Mounted(path, layers)]
      ensures settings == old(settings) && log == old(log) && db == old(db)
    {
      stack := stack + [Mounted(path, layers)];
    }

    /** `app.get(path, handler)`. */
    method Get(path: string, handler: Handler)
      modifies this
      ensures stack == old(stack) + [Endpoint(GET, path, [handler])]
      ensures settings == old(settings) && log == old(log) && db == old(db)
    {
      stack := stack + [Endpoint(GET, path, [handler])];
    }

    /** `app.set(name, value)`. */
    method Set(name: string, value: string)
      modifies this
      ensures settings == old(settings)[name := value]
      ensures stack == old(stack) && log == old(log) && db == old(db)
    {
      settings := settings[name := value];
    }
  }

  /** `res`, as far as handlers touch it: they write `res.locals`. */
  class Response {
    var locals: Locals

    constructor ()
      ensures locals == NoLocals
    {
      locals := NoLocals;
    }
  }
}
