/**
 * The sixteen request handlers of the Mongo store service
 * (`src/mongo-store-service.ts`). Every handler runs the same gate, looking
 * up the collection, checking `disable` and running the route chain, and
 * only then touches storage. A handler's observable behaviour is the
 * sequence of effects it has on the call context and on storage.
 */
module MongoStoreService {
  import opened Wrappers
  import opened JsonValues
  import opened Types
  import opened MapObj
  import opened ServiceUtils
  import opened TransformUtils

  /** A stream a handler pipes into the call. */
  datatype StreamSource =
    | QueryCursor(model: ModelRef, request: Request)     // the `find` cursor, each document through `transformResponse`
    | LiveSnapshots(model: ModelRef, request: Request)   // the change stream through `ChangeStreamToFindRecordsTransform`
    | ChangeEvents(model: ModelRef)                      // the raw change stream, each event through `transformResponse`

  /** One step a handler takes, in the order it takes them. */
  datatype Effect =
    | Invoke(call: StorageCall)                              // a storage helper is called
    | Send(response: Response)                               // `context.send`
    | Write(response: Response)                              // `context.write`
    | Halt(error: Error)                                     // `context.halt`
    | Subscribe(pipeline: Json, options: ChangeStreamOptions) // `collection.watch`
    | Pipe(source: StreamSource)                             // `pipeline(source, context.call)`

  /** An effect that reaches the database. */
  predicate TouchesStorage(e: Effect) {
    e.Invoke? || e.Subscribe?
  }

  predicate StorageCalled(effects: seq<Effect>) {
    exists i :: 0 <= i < |effects| && TouchesStorage(effects[i])
  }

  /** The action class each handler passes to `createRouteMiddlewares`. */
  function ActionOf(op: Operation): (a: ActionType)
    ensures a == ActionType.Create <==> op in {Operation.Create, InsertMany}
    ensures a == ActionType.Update <==> op in {FindByIdAndUpdate, FindOneAndUpdate, UpdateMany}
    ensures a == ActionType.Delete <==> op in {FindByIdAndDelete, FindOneAndDelete, DeleteMany}
    ensures a == ActionType.Read <==>
      op in {FindById, FindOne, Find, FindAndStreamResponse, FindLive, CountDocuments, EstimatedDocumentCount, Watch}
  {
    match op
    case Create => ActionType.Create
    case InsertMany => ActionType.Create
    case FindByIdAndUpdate => ActionType.Update
    case FindOneAndUpdate => ActionType.Update
    case UpdateMany => ActionType.Update
    case FindByIdAndDelete => ActionType.Delete
    case FindOneAndDelete => ActionType.Delete
    case DeleteMany => ActionType.Delete
    case _ => ActionType.Read
  }

  /** The storage helper of a handler that answers with a single message. */
  function SingleResultCall(op: Operation): (c: Option<StorageCall>)
    ensures c.None? <==> op in {FindAndStreamResponse, FindLive, Watch}
  {
    match op
    case Create => Some(CreateDocument)
    case InsertMany => Some(InsertManyDocuments)
    case FindById => Some(FindByIdDocument)
    case FindOne => Some(FindOneDocument)
    case Find => Some(FindDocuments)
    case FindByIdAndUpdate => Some(FindByIdAndUpdateDocument)
    case FindOneAndUpdate => Some(FindOneAndUpdateDocument)
    case UpdateMany => Some(UpdateManyDocuments)
    case FindByIdAndDelete => Some(FindByIdAndDeleteDocument)
    case FindOneAndDelete => Some(FindOneAndDeleteDocument)
    case DeleteMany => Some(DeleteManyDocuments)
    case CountDocuments => Some(CountDocumentsUtil)
    case EstimatedDocumentCount => Some(EstimatedDocumentCountUtil)
    case _ => None
  }

  /** The gate every handler runs before storage: the registry entry of the
      request's collection, or the error the handler halts with. */
  function Gate(modelsMap: map<string, ServiceConfig>, op: Operation, context: CallContext): (r: Result<ServiceConfig, Error>)
    requires ValidRegistry(modelsMap)
    ensures r.Success? <==>
      && CheckModelExist(context.request.collection, modelsMap).None?
      && !Truthy(modelsMap[context.request.collection].routes[op].disable)
      && ExecuteRouteMiddlewares(context, EntryChain(modelsMap[context.request.collection], op)).Resolved?
    ensures r.Success? ==> r.value == modelsMap[context.request.collection]
  {
    var colName := context.request.collection;
    match CheckModelExist(colName, modelsMap)
    case Some(err) => Failure(err)
    case None =>
      var entry := modelsMap[colName];
      if Truthy(entry.routes[op].disable) then Failure(NotFound("Not found"))
      else
        match ExecuteRouteMiddlewares(context, EntryChain(entry, op))
        case Rejected(e) => Failure(e)
        case Resolved => Success(entry)
  }

  /** The route chain a handler builds for a registry entry. */
  function EntryChain(entry: ServiceConfig, op: Operation): seq<Unit>
    requires Defaulted(entry)
  {
    RouteChain(ActionOf(op), entry.readRoles, entry.writeRoles, entry.routes[op])
  }

  /** What a handler does once the gate has let the request through. */
  function Served(op: Operation, model: ModelRef, request: Request, engine: Engine, db: DbState): seq<Effect> {
    match op
    case FindAndStreamResponse => [Invoke(FindDocumentsAndStreamResponse), Pipe(QueryCursor(model, request))]
    case FindLive => LiveServed(model, request, engine, db)
    case Watch => WatchServed(model, request)
    case _ => SingleServed(SingleResultCall(op).value, model, request, engine, db)
  }

  /** `findLive` after the gate: the initial snapshot, then the live feed. */
  function LiveServed(model: ModelRef, request: Request, engine: Engine, db: DbState): seq<Effect> {
    match engine(FindDocuments, model, request, db)
    case Failure(e) => [Invoke(FindDocuments), Halt(e)]
    case Success(docs) =>
      match LiveMatch(request.conditions)
      case Failure(e) => [Invoke(FindDocuments), Write(TransformResponse(docs)), Halt(e)]
      case Success(pipeline) =>
        [Invoke(FindDocuments), Write(TransformResponse(docs)), Subscribe(pipeline, UpdateLookup),
         Pipe(LiveSnapshots(model, request))]
  }

  /** `watch` after the gate. */
  function WatchServed(model: ModelRef, request: Request): seq<Effect> {
    match WatchOptionsOf(request.options)
    case Failure(e) => [Halt(e)]
    case Success(nOpt) => [Subscribe(request.pipeline, nOpt), Pipe(ChangeEvents(model))]
  }

  /** A single-result handler after the gate. */
  function SingleServed(call: StorageCall, model: ModelRef, request: Request, engine: Engine, db: DbState): seq<Effect> {
    match engine(call, model, request, db)
    case Failure(e) => [Invoke(call), Halt(e)]
    case Success(doc) => [Invoke(call), Send(TransformResponse(doc))]
  }

  /** The effects of handling one request. */
  function Transcript(modelsMap: map<string, ServiceConfig>, op: Operation, context: CallContext,
                      engine: Engine, db: DbState): seq<Effect>
    requires ValidRegistry(modelsMap)
  {
    match Gate(modelsMap, op, context)
    case Failure(e) => [Halt(e)]
    case Success(entry) => Served(op, entry.model, context.request, engine, db)
  }

  /** The `try` block of a handler, after the chain has resolved. */
  method Serve(op: Operation, model: ModelRef, request: Request, engine: Engine, db: DbState) returns (effects: seq<Effect>)
    ensures effects == Served(op, model, request, engine, db)
  {
    match op
    case FindAndStreamResponse =>
      effects := [Invoke(FindDocumentsAndStreamResponse), Pipe(QueryCursor(model, request))];
    case FindLive =>
      effects := ServeLive(model, request, engine, db);
    case Watch =>
      var nOpt := WatchOptions(request.options);
      if nOpt.Failure? {
        return [Halt(nOpt.error)];
      }
      effects := [Subscribe(request.pipeline, nOpt.value), Pipe(ChangeEvents(model))];
    case _ =>
      var call := SingleResultCall(op).value;
      var doc := engine(call, model, request, db);
      if doc.Failure? {
        return [Invoke(call), Halt(doc.error)];
      }
      effects := [Invoke(call), Send(TransformResponse(doc.value))];
  }

  /** The `try` block of `findLive`, after the chain has resolved. */
  method ServeLive(model: ModelRef, request: Request, engine: Engine, db: DbState) returns (effects: seq<Effect>)
    ensures effects == LiveServed(model, request, engine, db)
  {
    var doc := engine(FindDocuments, model, request, db);
    if doc.Failure? {
      return [Invoke(FindDocuments), Halt(doc.error)];
    }
    var changeStream := LiveMatch(request.conditions);
    if changeStream.Failure? {
      return [Invoke(FindDocuments), Write(TransformResponse(doc.value)), Halt(changeStream.error)];
    }
    effects := [Invoke(FindDocuments), Write(TransformResponse(doc.value)), Subscribe(changeStream.value, UpdateLookup),
                Pipe(LiveSnapshots(model, request))];
  }

  /** A handler, with its early returns. */
  method Handle(modelsMap: map<string, ServiceConfig>, op: Operation, context: CallContext,
                engine: Engine, db: DbState) returns (effects: seq<Effect>)
    requires ValidRegistry(modelsMap)
    ensures effects == Transcript(modelsMap, op, context, engine, db)
  {
    var colName := context.request.collection;
    var err := CheckModelExist(colName, modelsMap);
    if err.Some? {
      return [Halt(err.value)];
    }
    var entry := modelsMap[colName];
    var routeConfig := entry.routes[op];
    if routeConfig.disable == Some(true) {
      return [Halt(NotFound("Not found"))];
    }
    var routeMiddlewares := CreateRouteMiddlewares(ActionOf(op), entry.readRoles, entry.writeRoles, routeConfig);
    var settled := ExecuteRouteMiddlewares(context, routeMiddlewares);
    if settled.Rejected? {
      return [Halt(settled.error)];
    }
    effects := Serve(op, entry.model, context.request, engine, db);
  }

  /** The registry `mongoStoreService` builds; without `modelsOptions` it is
      empty. */
  method MongoStoreService(config: StoreConfig) returns (modelsMap: map<string, ServiceConfig>)
    ensures modelsMap == ModelsMap(if config.modelsOptions.Some? then config.modelsOptions.value else [])
    ensures ValidRegistry(modelsMap)
    ensures config.modelsOptions.None? ==> modelsMap == map[]
  {
    var modelOptions := if config.modelsOptions.Some? then config.modelsOptions.value else [];
    modelsMap := CreateModelsMap(modelOptions);
  }

  // ---------------------------------------------------------------------
  // Properties of the handlers
  // ---------------------------------------------------------------------

  /** An empty or unregistered collection name halts the handler with the
      lookup error, before any route configuration is read. */
  lemma UnknownCollectionHalts(modelsMap: map<string, ServiceConfig>, op: Operation, context: CallContext,
                               engine: Engine, db: DbState)
    requires ValidRegistry(modelsMap)
    requires |context.request.collection| == 0 || context.request.collection !in modelsMap
    ensures |context.request.collection| == 0 ==>
      Transcript(modelsMap, op, context, engine, db) == [Halt(InvalidArgument("Model value required"))]
    ensures |context.request.collection| > 0 ==>
      Transcript(modelsMap, op, context, engine, db) == [Halt(InvalidArgument("Model not defined on server"))]
    ensures !StorageCalled(Transcript(modelsMap, op, context, engine, db))
  {
  }

  /** A disabled route halts with NotFound, whatever the request, the caller's
      middleware or role, and the database. */
  lemma DisabledRouteHalts(modelsMap: map<string, ServiceConfig>, op: Operation, context: CallContext,
                           engine: Engine, db: DbState)
    requires ValidRegistry(modelsMap)
    requires |context.request.collection| > 0 && context.request.collection in modelsMap
    requires Truthy(modelsMap[context.request.collection].routes[op].disable)
    ensures Transcript(modelsMap, op, context, engine, db) == [Halt(NotFound("Not found"))]
  {
  }

  /** A chain that rejects halts the handler with the chain's own error, and
      storage is never called. */
  lemma RejectedChainHalts(modelsMap: map<string, ServiceConfig>, op: Operation, context: CallContext,
                           engine: Engine, db: DbState, e: Error)
    requires ValidRegistry(modelsMap)
    requires |context.request.collection| > 0 && context.request.collection in modelsMap
    requires !Truthy(modelsMap[context.request.collection].routes[op].disable)
    requires ExecuteRouteMiddlewares(context, EntryChain(modelsMap[context.request.collection], op)) == Rejected(e)
    ensures Transcript(modelsMap, op, context, engine, db) == [Halt(e)]
    ensures !StorageCalled(Transcript(modelsMap, op, context, engine, db))
  {
  }

  /** With `checkPermission` set and a resolved role the rule refuses, the
      handler halts with PermissionDenied and storage is never called. */
  lemma PermissionDeniedHalts(modelsMap: map<string, ServiceConfig>, op: Operation, context: CallContext,
                              engine: Engine, db: DbState, role: string)
    requires ValidRegistry(modelsMap)
    requires |context.request.collection| > 0 && context.request.collection in modelsMap
    requires var entry := modelsMap[context.request.collection];
      var route := entry.routes[op];
      && !Truthy(route.disable)
      && Truthy(route.checkPermission)
      && (route.middleware.Some? && route.middleware.value.Single? ==> route.middleware.value.unit(context).Continue?)
      && route.roleResolver.Some? && route.roleResolver.value(context) == Role(role)
      && !Permits(ActionOf(op), entry.readRoles, entry.writeRoles, role)
    ensures Transcript(modelsMap, op, context, engine, db) == [Halt(PermissionDenied(ForbiddenMessage))]
    ensures !StorageCalled(Transcript(modelsMap, op, context, engine, db))
  {
    var entry := modelsMap[context.request.collection];
    var chain := EntryChain(entry, op);
    var last := |chain| - 1;
    assert chain[last] == Permission(ActionOf(op), entry.readRoles, entry.writeRoles, entry.routes[op].roleResolver);
    assert UnitStep(chain[last], context) == Abort(PermissionDenied(ForbiddenMessage));
    assert forall i :: 0 <= i < last ==> UnitStep(chain[i], context).Continue?;
  }

  /** A role resolver that rejects with a falsy value opens a checked
      route: the permission unit calls `next` with nothing, the chain
      resolves, and storage is reached whatever the role lists say. */
  lemma FalsyRejectionPassesGate(modelsMap: map<string, ServiceConfig>, op: Operation, context: CallContext,
                                 engine: Engine, db: DbState)
    requires ValidRegistry(modelsMap)
    requires |context.request.collection| > 0 && context.request.collection in modelsMap
    requires var route := modelsMap[context.request.collection].routes[op];
      && !Truthy(route.disable)
      && Truthy(route.checkPermission)
      && route.middleware.None?
      && route.roleResolver.Some? && route.roleResolver.value(context) == Throws(None)
    ensures Gate(modelsMap, op, context) == Success(modelsMap[context.request.collection])
    ensures op != Watch ==> StorageCalled(Transcript(modelsMap, op, context, engine, db))
  {
    var entry := modelsMap[context.request.collection];
    var chain := EntryChain(entry, op);
    assert chain == [Permission(ActionOf(op), entry.readRoles, entry.writeRoles, entry.routes[op].roleResolver)];
    assert UnitStep(chain[0], context) == Continue;
    StorageCalledOnlyThroughGate(modelsMap, op, context, engine, db);
  }

  /** Storage is reached exactly when the gate lets the request through,
      except for a `watch` request without options, which fails on reading
      them before the change stream is opened. */
  lemma StorageCalledOnlyThroughGate(modelsMap: map<string, ServiceConfig>, op: Operation, context: CallContext,
                                     engine: Engine, db: DbState)
    requires ValidRegistry(modelsMap)
    ensures StorageCalled(Transcript(modelsMap, op, context, engine, db)) <==>
      Gate(modelsMap, op, context).Success? && (op != Watch || context.request.options.Some?)
  {
    var t := Transcript(modelsMap, op, context, engine, db);
    if Gate(modelsMap, op, context).Success? && (op != Watch || context.request.options.Some?) {
      assert TouchesStorage(t[0]);
    }
  }

  /** A single-result handler that passes the gate calls its storage helper
      once and then either sends the one response or halts with the storage
      error, unchanged. */
  lemma SingleResultOutcome(modelsMap: map<string, ServiceConfig>, op: Operation, context: CallContext,
                            engine: Engine, db: DbState)
    requires ValidRegistry(modelsMap)
    requires Gate(modelsMap, op, context).Success? && SingleResultCall(op).Some?
    ensures var call := SingleResultCall(op).value;
      var model := modelsMap[context.request.collection].model;
      Transcript(modelsMap, op, context, engine, db) ==
        match engine(call, model, context.request, db)
        case Success(doc) => [Invoke(call), Send(TransformResponse(doc))]
        case Failure(e) => [Invoke(call), Halt(e)]
  {
  }

  /** `findLive` writes the initial snapshot before it subscribes: nothing
      is subscribed or piped unless the snapshot was written first. */
  lemma FindLiveSnapshotFirst(modelsMap: map<string, ServiceConfig>, context: CallContext, engine: Engine, db: DbState)
    requires ValidRegistry(modelsMap)
    requires Gate(modelsMap, FindLive, context).Success?
    ensures var t := Transcript(modelsMap, FindLive, context, engine, db);
      && |t| >= 2 && t[0] == Invoke(FindDocuments)
      && forall i :: 0 <= i < |t| && (t[i].Subscribe? || t[i].Pipe?) ==> 2 <= i && t[1].Write?
  {
  }

  /** For a filter object, `findLive` runs the initial find, writes it,
      subscribes with the rewritten filter and pipes the snapshots, in that
      order. */
  lemma FindLiveOnObject(modelsMap: map<string, ServiceConfig>, context: CallContext, engine: Engine, db: DbState)
    requires ValidRegistry(modelsMap)
    requires Gate(modelsMap, FindLive, context).Success?
    requires context.request.conditions.JObject?
    requires engine(FindDocuments, modelsMap[context.request.collection].model, context.request, db).Success?
    ensures var model := modelsMap[context.request.collection].model;
      var docs := engine(FindDocuments, model, context.request, db).value;
      var updated := Mapped(context.request.conditions, UpdateKey, true);
      Transcript(modelsMap, FindLive, context, engine, db) ==
        [ Invoke(FindDocuments),
          Write(TransformResponse(docs)),
          Subscribe(MatchStage(JObject([("operationType", InsertOrUpdate)] + updated.entries)), UpdateLookup),
          Pipe(LiveSnapshots(model, context.request)) ]
  {
    LiveMatchOnObject(context.request.conditions);
  }

  /** A service registered without `modelsOptions` turns every request away
      with InvalidArgument. */
  lemma EmptyRegistryRejectsAll(op: Operation, context: CallContext, engine: Engine, db: DbState)
    ensures ValidRegistry(ModelsMap([]))
    ensures var t := Transcript(ModelsMap([]), op, context, engine, db);
      |t| == 1 && t[0].Halt? && t[0].error.InvalidArgument?
  {
  }

  // ---------------------------------------------------------------------
  // Scenarios
  // ---------------------------------------------------------------------

  /** The registrations of the example server: the author model under
      `authors` and the story model under `storeis`, with no roles and no
      route configuration. */
  function ExampleRegistrations(): seq<ServiceConfig> {
    [ ServiceConfig(ModelRef("authors", 0), None, None, map[]),
      ServiceConfig(ModelRef("storeis", 1), None, None, map[]) ]
  }

  /** In the example server every route of `authors` is open: the chain is
      empty and the request goes straight to storage. */
  lemma ExampleRoutesOpen(op: Operation, context: CallContext, engine: Engine, db: DbState)
    requires context.request.collection == "authors"
    ensures ValidRegistry(ModelsMap(ExampleRegistrations()))
    ensures Gate(ModelsMap(ExampleRegistrations()), op, context) == Success(WithDefaults(ExampleRegistrations()[0]))
  {
    var regs := ExampleRegistrations();
    var modelsMap := ModelsMap(regs);
    assert regs[..1][..0] == [];
    assert modelsMap["authors"] == WithDefaults(regs[0]);
    assert EntryChain(modelsMap["authors"], op) == [];
  }

  /** The example server registers the story model as `storeis`, so a
      request for `stories` is turned away. */
  lemma ExampleStoriesNotDefined(op: Operation, context: CallContext, engine: Engine, db: DbState)
    requires context.request.collection == "stories"
    ensures ValidRegistry(ModelsMap(ExampleRegistrations()))
    ensures Transcript(ModelsMap(ExampleRegistrations()), op, context, engine, db) ==
      [Halt(InvalidArgument("Model not defined on server"))]
  {
    var regs := ExampleRegistrations();
    assert regs[..1][..0] == [];
    assert ModelsMap(regs).Keys == {"authors", "storeis"};
  }

  /** `authors` with `writeRoles` `["admin"]` and a permission-checked
      `create` whose resolver answers `guest`: the create is refused before
      storage, while a `findById` on the same registry, unchecked, goes
      through. */
  lemma GuestCannotCreateAuthor(context: CallContext, engine: Engine, db: DbState)
    requires context.request.collection == "authors"
    ensures var guest: Resolver := (c: CallContext) => Role("guest");
      var route := RouteConfig(None, Some(true), None, Some(guest));
      var regs := [ServiceConfig(ModelRef("authors", 0), None, Some(["admin"]), map[Operation.Create := route])];
      && ValidRegistry(ModelsMap(regs))
      && Transcript(ModelsMap(regs), Operation.Create, context, engine, db) == [Halt(PermissionDenied(ForbiddenMessage))]
      && Gate(ModelsMap(regs), FindById, context).Success?
  {
    var guest: Resolver := (c: CallContext) => Role("guest");
    var route := RouteConfig(None, Some(true), None, Some(guest));
    var regs := [ServiceConfig(ModelRef("authors", 0), None, Some(["admin"]), map[Operation.Create := route])];
    assert regs[..0] == [];
    var modelsMap := ModelsMap(regs);
    assert modelsMap["authors"] == WithDefaults(regs[0]);
    PermissionDeniedHalts(modelsMap, Operation.Create, context, engine, db, "guest");
    assert EntryChain(modelsMap["authors"], FindById) == [];
  }
}
