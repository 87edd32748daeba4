# cruddy, modelled in Dafny

cruddy builds an Express server from a configuration of *domains*. A domain
is a database table with JSON schemas for its five operations (create,
readOne, readMany, update, destroy), optional input/output formatters and
optional server-rendered views. For each domain the server mounts a REST
router under the API prefix and five GET pages. Every request goes through
a fixed middleware order. Handlers stage their result in `res.locals`, and
one of two finalizers turns that record into the JSON response.

This project models the decision logic of that server and proves what it
promises:

- `js.dfy` (`Js`): the JavaScript values the code handles. This covers
  truthiness, `||`, destructuring defaults, ramda's `pathOr`/`propOr`,
  array destructuring of the first row, object spread, and
  `String.prototype.replace` with a string pattern (first occurrence only).
  A `Completion` (normal value or thrown value) stands for `throw`/`try`.
- `config.dfy` (`Config`): the configuration records of `src/types.d.ts`.
- `express.dfy` (`Express`): routers and the app as classes whose ordered
  `stack` the registration methods extend. `res` is a class holding
  `res.locals`.
- `query_builder.dfy` (`QueryBuilder`): the knex calls as query
  descriptions, and the `limit`/`offset`/`{id}` selections.
- `validate_schema.dfy` (`SchemaValidation`): `validateSchema`.
- `api.dfy` (`Api`): the upload gate, the five handlers (planning,
  short-circuiting, staging), the route table, `createDomainFromConfig` and
  `createAPI`.
- `views.dfy` (`Views`): default view configs, `applyView`, the pages'
  queries and render data, and `createViews`.
- `server.dfy` (`Server`): the two default finalizers, `setContext`,
  `addPreware`/`addPostware`, and `createServer`'s middleware order.

The database, the JSON-schema validator and the formatters are parameters
of the model. The database is a function from query descriptions to row
sequences or a rejection. The validator is a function from payload and
schema to its error list. Formatters are functions that may throw.

Three behaviours of the code are modelled as written and shown by lemmas:

- With no formatter configured, the default is ramda's `always`. What is
  written or staged is therefore a constant function, not the value
  (`Api.UnformattedOutputIsAlways`, `Api.UnformattedInputIsAlways`). Since
  `JSON.stringify` drops functions, the client then receives no `data`
  (`Server.UnformattedResultSendsNoData`).
- The default error finalizer reads the status from `res.locals`, not from
  the error. A validation error's 400 is therefore answered with 500
  (`Server.ValidationFailureAnswers500`).
- `createServer` calls `createAPI` without a multer instance. Any domain
  whose create or update schema has a truthy `acceptFiles` therefore makes
  `createServer` throw while it builds the routers
  (`Server.FileUploadsBreakCreateServer`).

Two further details of the code:

- `replace('instance.', '')` removes the first occurrence of `instance.`
  wherever it stands in the property path, which need not be at its start
  (`SchemaValidation.FirstOccurrenceAnywhere`).
- The default formatter is ramda's `always`. A missing formatter therefore
  does not pass its argument through unchanged.

## Model

| member | source | states |
|---|---|---|
| `Js.IndexOf` | src/validateSchema.ts:14 | the index returned is an occurrence of the pattern and no earlier index is one; `None` means no occurrence at all |
| `Js.RemoveFirst` | src/validateSchema.ts:14 | `replace(pat, '')` equals the input with the first occurrence of `pat` cut out, or the input unchanged when `pat` does not occur |
| `SchemaValidation.ValidateSchema` | src/validateSchema.ts:3-24 | normal (and `true`) exactly when the error list is empty; otherwise one `Error` with status 400 whose message is the first error's message for `additionalProperties`, else `Key <p> is required` where `p` is its `property` with the first `instance.` removed |
| `SchemaValidation.OnlyFirstErrorCounts` | src/validateSchema.ts:7 | errors after the first never change the outcome |
| `SchemaValidation.MissingFieldMessage` | src/validateSchema.ts:12-18 | a property `instance.<field>` yields exactly `Key <field> is required` with status 400 |
| `SchemaValidation.FirstOccurrenceAnywhere` | src/validateSchema.ts:14 | only the first `instance.` is removed, even when it is not at the start |
| `SchemaValidation.PropertyWithoutPrefixQuoted` | src/validateSchema.ts:12-18 | any property that does not contain `instance.` is quoted unchanged: `Key <property> is required`, status 400 |
| `SchemaValidation.RootPropertyMessage` | src/validateSchema.ts:14 | the root property `instance`, shorter than `instance.`, gives `Key instance is required` |
| `QueryBuilder.Limit` | src/api.ts:31 | `limit` is the query's value when present, 50 only when absent |
| `QueryBuilder.Offset` | src/api.ts:31 | `offset` is the query's value when present, 0 only when absent |
| `QueryBuilder.IdFilter` | src/api.ts:82-84 | the filter is the object `{id: req.params.id}` and nothing else |
| `Api.AcceptedKeys` | src/api.ts:11 | the configured `acceptedKeys`, or `[{name: 'file'}]` when absent |
| `Api.CreateFileUploader` | src/api.ts:7-12 | a pass-through exactly when `acceptFiles` is not truthy; multer's `fields(acceptedKeys)` when it is and an instance exists; a throw exactly when it is truthy and there is no instance |
| `Api.Projection` | src/api.ts:34 | the query's `keys` if truthy, else `config.keys` if truthy, else `['*']`; always truthy |
| `Api.Returning` | src/api.ts:61 | `config.keys` when it is truthy, else `'*'` |
| `Api.FormattersFor` | src/api.ts:51 | throws exactly when `formatters` is missing; a configured operation gets its own formatters; an unconfigured one has neither |
| `Api.Run` | src/api.ts:24-150 | a run that issues no query stages nothing: it throws |
| `Api.Handle` | src/api.ts:24-150 | a successful run stages its value in `res.locals.data` and calls `next()`; a throw leaves `res.locals` unchanged and calls `next(e)`; the query issued is the plan's |
| `Api.ValidationFailureShortCircuits` | src/api.ts:26-28 | a failed validation issues no query and forwards the validator's error, whose status is 400 |
| `Api.NoSchemaNoValidation` | src/api.ts:47-49 | without a schema for the operation the validator's answer is irrelevant |
| `Api.ValidatorSeesOnlyItsPayload` | src/api.ts:100-102 | create and update validate `req.body`, the others `req.query`; the run depends on the validator only through that payload |
| `Api.ReadsProjectAndPage` | src/api.ts:80-88 | readMany and readOne select the projection with the `limit`/`offset` defaults; readOne filters on `{id}`; readMany has no output formatter |
| `Api.WritesReturnConfiguredKeys` | src/api.ts:58-61 | create inserts, update and destroy filter on `{id}`, and all three return `config.keys` or `'*'` |
| `Api.FirstRowOnly` | src/api.ts:137-144 | readOne, update and destroy format only the first row; with no row and no formatter the staged value is `always(undefined)`, not an error |
| `Api.ReadManyStagesRawList` | src/api.ts:33-39 | readMany stages the raw row list, and its plan does not depend on `formatters` |
| `Api.ConfiguredOutputFormatterApplied` | src/api.ts:54-63 | a configured output formatter gets the first returned row, and its result (or throw) is what is staged |
| `Api.UnformattedOutputIsAlways` | src/api.ts:54 | with no output formatter the staged value is `always(row)` and not the row |
| `Api.UnformattedInputIsAlways` | src/api.ts:53 | with no input formatter the payload written is `always(req)` |
| `Api.InputFormatterSeesRequest` | src/api.ts:56 | the input formatter gets the whole request and its result is the payload; its throw issues no query and goes to `next` |
| `Api.MissingFormattersThrow` | src/api.ts:51 | with `formatters` missing every handler but readMany throws a TypeError before any query |
| `Api.RouteTableDispatch` | src/api.ts:151-168 | GET / is readMany, POST / create, GET /:id readOne, PATCH /:id update, DELETE /:id destroy, nothing else is routed; the writes run the JSON and urlencoded parsers, then their upload gate |
| `Api.ApplyHandlers` | src/api.ts:14-171 | the router gains the domain's routes; a failing create gate leaves only GET /, a failing update gate the first three routes |
| `Api.CreateDomainFromConfig` | src/api.ts:173-178 | a fresh router holding exactly the domain's routes, or the gate's throw |
| `Api.ApiLayersKeepsFirstThrow` | src/api.ts:185-187 | once a domain fails, the API fails with that same error |
| `Api.ApiMountsEachDomain` | src/api.ts:185-187 | one router per domain, mounted at `/<domain>`, in entry order |
| `Api.ApiBuildsUnlessUploadMissing` | src/api.ts:180-190 | with a multer instance the API always builds; without one it throws exactly when some domain accepts files |
| `Api.CreateAPI` | src/api.ts:180-190 | a fresh router whose stack is the per-domain mounts, or the first domain's throw |
| `Views.ResolveView` | src/views.ts:4-40 | a configured view is used as is; an absent one falls back to `default_<op>` with data `{}` |
| `Views.ViewRoutes` | src/views.ts:45-129 | five routes, the i-th being the page of the i-th operation in registration order |
| `Views.ViewRouteOrder` | src/views.ts:45-129 | all GET, registered as `/<d>/create`, `/<d>`, `/<d>/:id`, `/<d>/:id/edit`, `/<d>/:id/delete`, each with one handler serving its own operation with that operation's resolved view |
| `Views.ApplyView` | src/views.ts:29-130 | the app gains exactly the domain's five pages and nothing else changes |
| `Views.ViewLayersPerDomain` | src/views.ts:146-148 | the views build exactly when every domain has `views`, otherwise the destructuring TypeError; each domain adds its five routes, in entry order |
| `Views.MissingViewsThrow` | src/views.ts:34-40 | any domain without `views` makes building the views throw the destructuring TypeError |
| `Views.ViewSettings` | src/views.ts:135-144 | `views` is the template dir or `./views`, `view engine` the template type or `pug` |
| `Views.CreateViews` | src/views.ts:132-151 | settings then routes in entry order; on a domain without `views` it throws after registering the domains before it |
| `Views.ViewQuery` | src/views.ts:58-83 | no query for the create form; `select('*')` with the paging defaults for the list; `select('*')` on `{id}` for item, edit and delete |
| `Views.RenderData` | src/views.ts:47-125 | the create form renders `propOr({}, 'data')`; the others render `list`/`item` merged with the configured data, spread last so its keys win |
| `Views.ServeView` | src/views.ts:45-129 | the page renders its template with that data, or forwards the database's rejection or the missing-context error to `next` |
| `Views.UnconfiguredPage` | src/views.ts:34-40 | an unconfigured page renders `default_<op>` with only `list` or `item`, which is `undefined` when no row exists |
| `Server.DefaultSuccessHandler` | src/index.ts:63-71 | status `res.locals.status`, 200 when unset; the body has exactly `data`, `meta`, `links` from `res.locals` |
| `Server.DefaultErrorHandler` | src/index.ts:48-61 | status `res.locals.status`, 500 when unset; the body is `{error: err}`; the logged value is `res.locals.error`, else `err` |
| `Server.ErrorStatusIgnoresThrownStatus` | src/index.ts:54-58 | the error's own `status` never changes the response status |
| `Server.ValidationFailureAnswers500` | src/index.ts:54 | a validation failure's 400 error is answered with status 500 |
| `Server.JsonMembers` | src/index.ts:66-70 | the JSON body keeps exactly the members that are neither `undefined` nor functions |
| `Server.UnformattedResultSendsNoData` | src/index.ts:63-71 | with no output formatter the response has no `data` member |
| `Server.WithContext` | src/index.ts:16-19 | every request gets the same context, the rest of the request unchanged |
| `Server.SetContext` | src/index.ts:12-20 | the app gains the context middleware and is returned |
| `Server.UseEach` | src/index.ts:26-28 | one middleware per factory, in order |
| `Server.AddPreware` | src/index.ts:22-29 | the app gains one middleware per preware factory, in order, and nothing else changes |
| `Server.AddPostware` | src/index.ts:31-38 | the app gains one middleware per postware factory, in order, and nothing else changes |
| `Server.LoggerFor` | src/index.ts:74-78 | the logger is named after the service, at `logLevel` or `trace` |
| `Server.ApiPrefix` | src/index.ts:106 | the configured prefix if non-empty, else `/api` |
| `Server.ServerStackCases` | src/index.ts:82-124 | the server fails with the API's throw, else with the views' throw, else has the assembled stack |
| `Server.MiddlewareOrder` | src/index.ts:90-119 | context; morgan, cors, helmet; the preware; the API at its prefix; the postware; the views; `onResult` or the success finalizer; `onError` or the error finalizer |
| `Server.FileUploadsBreakCreateServer` | src/index.ts:82 | a domain accepting files makes `createServer` throw; it builds exactly when no domain accepts files and every domain has views |
| `Server.CreateServer` | src/index.ts:73-125 | the app has the stack above, the view settings, and `log` and `db` attached; or it throws what the API or the views throw |

## Left out

- The database (knex and `./db`) is not modelled. Queries are
  descriptions, and the database is a function from a query to a row
  sequence or a rejection. Connecting (`connectToDB`) is replaced by a
  `DbHandle` parameter.
- The `jsonschema` validator is a parameter returning its error list.
- multer, body-parser, morgan, cors, helmet, bunyan, `res.render` and pug
  are foreign. Their middleware appear as tags; rendering yields the
  template name and data.
- Express routing internals are not modelled: path matching of mounted
  routers, and how `next(e)` skips to error handlers. `Api.Dispatch` only
  looks up the table of one domain router.
- `async`/`await` and concurrent requests are not modelled. Each handler
  is one sequential step, and a rejected promise is a thrown value.
- A sub-router is mounted as a snapshot of its stack. Later changes to the
  same router object would not show through; the code makes none.
- Number semantics are simplified. Numbers are integers; `NaN`, `-0` and
  floating point are not modelled in truthiness.
- The messages of engine TypeErrors (reading a property of `undefined`)
  are placeholders. The model keeps only that a TypeError is thrown.
- Object spread of data that is not an object (strings, arrays) copies
  nothing in the model. In JavaScript a string or array spreads its
  indices.
- A domain whose `schemas` object is missing is not modelled: the record
  always has a `schemas` value.
- `src/pages.ts` and `demo.js` are not part of this model. `src/types.d.ts`
  only shapes the datatypes.
- `Api.Run`: its own contract states only that no query means a throw. The
  per-operation promises are the lemmas listed above.
- `Server.DefaultErrorHandler`: the log call is modelled as the value
  logged, not as a bunyan record.
