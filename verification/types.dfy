/**
 * The configuration and request types of the Mongo store service. Code that
 * lives outside this repository (caller middleware, role resolvers) enters
 * the model as total functions over the call context.
 */
module Types {
  import opened Wrappers
  import opened JsonValues

  /** The permission class of an operation. */
  datatype ActionType = Create | Read | Update | Delete

  /** The sixteen handlers the service registers, one per RPC. */
  datatype Operation =
    | Create
    | InsertMany
    | FindById
    | FindOne
    | Find
    | FindAndStreamResponse
    | FindLive
    | FindByIdAndUpdate
    | FindOneAndUpdate
    | UpdateMany
    | FindByIdAndDelete
    | FindOneAndDelete
    | DeleteMany
    | CountDocuments
    | EstimatedDocumentCount
    | Watch

  const AllOperations: set<Operation> := {
    Operation.Create, InsertMany, FindById, FindOne, Find, FindAndStreamResponse,
    FindLive, FindByIdAndUpdate, FindOneAndUpdate, UpdateMany, FindByIdAndDelete,
    FindOneAndDelete, DeleteMany, CountDocuments, EstimatedDocumentCount, Watch
  }

  /** Every operation is one of the sixteen. */
  lemma AllOperationsComplete(op: Operation)
    ensures op in AllOperations
  {
  }

  /** Errors a request can end with. The first three are the gRPC errors the
      service raises itself; the others are raised by code it calls. */
  datatype Error =
    | InvalidArgument(message: string)
    | NotFound(message: string)
    | PermissionDenied(message: string)
    | TypeError(message: string)
    | Thrown(message: string)

  /** The options of a `watch` request. */
  datatype WatchRequestOptions = WatchRequestOptions(
    fullDocument: string,
    maxAwaitTimeMS: int,
    resumeAfter: string,
    startAfter: string,
    batchSize: int,
    readPreference: string)

  /** A decoded request. `conditions` is the parsed filter and `pipeline` the
      parsed aggregation pipeline of `watch`; `options` is the `watch` options
      message, absent when the client sent none; `fields` holds the remaining
      operation-specific fields, passed on to storage untouched. */
  datatype Request = Request(
    collection: string,
    conditions: Json,
    pipeline: Json,
    options: Option<WatchRequestOptions>,
    fields: map<string, string>)

  /** The call context handed to every middleware unit and role resolver. */
  datatype CallContext = CallContext(request: Request, metadata: map<string, string>)

  /** What a middleware unit does with `next`: advance, or advance with an error. */
  datatype UnitOutcome = Continue | Abort(error: Error)

  /** What awaiting a role resolver gives: a role, or the value it rejected
      with. `Throws(None)` is a rejection with a falsy value (`undefined`,
      `null`, `0`, `''`, `false`), which carries no error. */
  datatype RoleOutcome = Role(role: string) | Throws(thrown: Option<Error>)

  /** A caller-supplied middleware unit. */
  type Middleware = CallContext -> UnitOutcome

  /** `roleResolveHandler`: resolves the caller's role from the call context. */
  type Resolver = CallContext -> RoleOutcome

  /** The `middleware` field: one unit, or an array of units. */
  datatype MiddlewareSpec = Single(unit: Middleware) | Many(units: seq<Middleware>)

  /** `ModelRouteConfig`: every field is optional. */
  datatype RouteConfig = RouteConfig(
    disable: Option<bool>,
    checkPermission: Option<bool>,
    middleware: Option<MiddlewareSpec>,
    roleResolver: Option<Resolver>)

  /** A Mongoose model handle; only its `modelName` matters to the core. */
  datatype ModelRef = ModelRef(modelName: string, handle: nat)

  /** `ModelServiceConfig`: the model, optional role lists, and an optional
      route configuration per operation (an operation missing from `routes`
      is a field left undefined). */
  datatype ServiceConfig = ServiceConfig(
    model: ModelRef,
    readRoles: Option<seq<string>>,
    writeRoles: Option<seq<string>>,
    routes: map<Operation, RouteConfig>)

  /** `MongoStoreServiceConfig` without the database connection. */
  datatype StoreConfig = StoreConfig(
    middleware: Option<MiddlewareSpec>,
    modelsOptions: Option<seq<ServiceConfig>>)

  /** JavaScript truthiness of an optional boolean. */
  predicate Truthy(b: Option<bool>) {
    b == Some(true)
  }

  /** The route configuration of `op`, `undefined` when it was not given. */
  function RouteOf(cfg: ServiceConfig, op: Operation): Option<RouteConfig> {
    if op in cfg.routes then Some(cfg.routes[op]) else None
  }
}
