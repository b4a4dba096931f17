/**
 * The request gate of the Mongo store service (`src/utils/service-utils.ts`):
 * the model registry, the per-route middleware chain with its permission
 * unit, the chain executor, the collection check, the live-query filter and
 * the `watch` option toggles. The Mongoose queries behind the gate are one
 * opaque storage engine.
 */
module ServiceUtils {
  import opened Wrappers
  import opened JsonValues
  import opened Types
  import opened MapObj

  // ---------------------------------------------------------------------
  // Registry
  // ---------------------------------------------------------------------

  /** The route configuration every operation gets when none was given. */
  const DefaultRoute: RouteConfig := RouteConfig(Some(false), Some(false), None, None)

  /** `getModelRouteWithDefaults`: `disable` and `checkPermission` default to
      `false`; whatever the caller set is spread over the defaults. */
  function GetModelRouteWithDefaults(routeConfig: Option<RouteConfig>): (r: RouteConfig)
    ensures r.disable.Some? && r.checkPermission.Some?
    ensures routeConfig.None? ==> r == DefaultRoute
    ensures routeConfig.Some? ==>
      && r.middleware == routeConfig.value.middleware
      && r.roleResolver == routeConfig.value.roleResolver
      && (routeConfig.value.disable.Some? ==> r.disable == routeConfig.value.disable)
      && (routeConfig.value.checkPermission.Some? ==> r.checkPermission == routeConfig.value.checkPermission)
    ensures Truthy(r.disable) <==> routeConfig.Some? && Truthy(routeConfig.value.disable)
    ensures Truthy(r.checkPermission) <==> routeConfig.Some? && Truthy(routeConfig.value.checkPermission)
  {
    match routeConfig
    case None => DefaultRoute
    case Some(c) =>
      RouteConfig(
        if c.disable.Some? then c.disable else Some(false),
        if c.checkPermission.Some? then c.checkPermission else Some(false),
        c.middleware,
        c.roleResolver)
  }

  /** A registry entry whose sixteen route configurations are all present,
      each with `disable` and `checkPermission` set. */
  ghost predicate Defaulted(c: ServiceConfig) {
    forall op: Operation :: op in c.routes && c.routes[op].disable.Some? && c.routes[op].checkPermission.Some?
  }

  /** Every entry of the registry has its defaults filled in. */
  ghost predicate ValidRegistry(modelsMap: map<string, ServiceConfig>) {
    forall name :: name in modelsMap ==> Defaulted(modelsMap[name])
  }

  /** The entry `createModelsMap` stores for one registration: the
      registration with each of the sixteen route configurations defaulted. */
  function WithDefaults(cfg: ServiceConfig): (r: ServiceConfig)
    ensures r.model == cfg.model && r.readRoles == cfg.readRoles && r.writeRoles == cfg.writeRoles
    ensures Defaulted(r)
    ensures forall op :: op !in cfg.routes ==> r.routes[op] == DefaultRoute
    ensures forall op :: op in cfg.routes ==>
      && r.routes[op].middleware == cfg.routes[op].middleware
      && r.routes[op].roleResolver == cfg.routes[op].roleResolver
      && (Truthy(r.routes[op].disable) <==> Truthy(cfg.routes[op].disable))
      && (Truthy(r.routes[op].checkPermission) <==> Truthy(cfg.routes[op].checkPermission))
  {
    var routes := map op | op in AllOperations :: GetModelRouteWithDefaults(RouteOf(cfg, op));
    forall op: Operation ensures op in AllOperations {
      AllOperationsComplete(op);
    }
    ServiceConfig(cfg.model, cfg.readRoles, cfg.writeRoles, routes)
  }

  /** The registry built from a registration list: each entry is keyed by its
      model name, and a later registration of the same name replaces an
      earlier one. */
  function ModelsMap(modelOptions: seq<ServiceConfig>): (r: map<string, ServiceConfig>)
    ensures ValidRegistry(r)
    ensures forall name :: name in r ==> exists i :: 0 <= i < |modelOptions| && modelOptions[i].model.modelName == name
    ensures forall i :: 0 <= i < |modelOptions| ==> modelOptions[i].model.modelName in r
  {
    if modelOptions == [] then map[]
    else
      var pre := modelOptions[..|modelOptions| - 1];
      var last := modelOptions[|modelOptions| - 1];
      var r := ModelsMap(pre)[last.model.modelName := WithDefaults(last)];
      assert forall i :: 0 <= i < |pre| ==> pre[i] == modelOptions[i];
      r
  }

  /** The entry stored under a name is the last registration with that name. */
  lemma {:induction false} ModelsMapLastWins(modelOptions: seq<ServiceConfig>, i: nat)
    requires i < |modelOptions|
    requires forall j :: i < j < |modelOptions| ==> modelOptions[j].model.modelName != modelOptions[i].model.modelName
    ensures ModelsMap(modelOptions)[modelOptions[i].model.modelName] == WithDefaults(modelOptions[i])
  {
    if i < |modelOptions| - 1 {
      var pre := modelOptions[..|modelOptions| - 1];
      assert pre[i] == modelOptions[i];
      ModelsMapLastWins(pre, i);
    }
  }

  /** `createModelsMap`: fills the registry in one pass over the registrations. */
  method CreateModelsMap(modelOptions: seq<ServiceConfig>) returns (modelsMap: map<string, ServiceConfig>)
    ensures modelsMap == ModelsMap(modelOptions)
  {
    modelsMap := map[];
    var k := 0;
    while k < |modelOptions|
      invariant 0 <= k <= |modelOptions|
      invariant modelsMap == ModelsMap(modelOptions[..k])
    {
      var modelOpt := modelOptions[k];
      var newModelServiceConfig := WithDefaults(modelOpt);
      assert modelOptions[..k + 1][..k] == modelOptions[..k];
      modelsMap := modelsMap[modelOpt.model.modelName := newModelServiceConfig];
      k := k + 1;
    }
    assert modelOptions[..k] == modelOptions;
  }

  /** `checkModelExist`: the error a collection name draws, if any. */
  function CheckModelExist(model: string, modelsMap: map<string, ServiceConfig>): (r: Option<Error>)
    ensures r.None? <==> |model| > 0 && model in modelsMap
    ensures r.Some? ==> r.value.InvalidArgument?
    ensures |model| == 0 ==> r == Some(InvalidArgument("Model value required"))
    ensures |model| > 0 && model !in modelsMap ==> r == Some(InvalidArgument("Model not defined on server"))
  {
    if |model| == 0 then Some(InvalidArgument("Model value required"))
    else if model !in modelsMap then Some(InvalidArgument("Model not defined on server"))
    else None
  }

  // ---------------------------------------------------------------------
  // Route middleware chain
  // ---------------------------------------------------------------------

  const ForbiddenMessage: string := "Permission not allowed"

  /** A unit of a route chain: a caller-supplied middleware, or the
      permission unit `createRouteMiddlewares` builds around the role lists
      and the role resolver it captured. */
  datatype Unit =
    | Custom(run: Middleware)
    | Permission(action: ActionType, readRoles: Option<seq<string>>, writeRoles: Option<seq<string>>,
                 resolver: Option<Resolver>)

  /** `list.includes(role)` on an optional list; an absent list includes nothing. */
  predicate Includes(roles: Option<seq<string>>, role: string) {
    roles.Some? && role in roles.value
  }

  /** The permission rule: reading needs the role in either list, every other
      action needs it in `writeRoles`. */
  predicate Permits(action: ActionType, readRoles: Option<seq<string>>, writeRoles: Option<seq<string>>, role: string) {
    if action.Read? then Includes(readRoles, role) || Includes(writeRoles, role)
    else Includes(writeRoles, role)
  }

  /** A write action is allowed only for a present, non-empty `writeRoles`. */
  lemma WriteNeedsWriteRoles(action: ActionType, readRoles: Option<seq<string>>, writeRoles: Option<seq<string>>, role: string)
    requires !action.Read? && Permits(action, readRoles, writeRoles, role)
    ensures writeRoles.Some? && |writeRoles.value| > 0
  {
    assert writeRoles.value[0] in writeRoles.value;
  }

  /** What the permission unit passes to `next`. */
  function PermissionVerdict(action: ActionType, readRoles: Option<seq<string>>, writeRoles: Option<seq<string>>,
                             resolver: Option<Resolver>, context: CallContext): UnitOutcome
  {
    match resolver
    case None => Continue
    case Some(resolve) =>
      match resolve(context)
      case Throws(thrown) =>
        if thrown.Some? then Abort(thrown.value) else Continue
      case Role(role) =>
        if Permits(action, readRoles, writeRoles, role) then Continue
        else Abort(PermissionDenied(ForbiddenMessage))
  }

  /** The permission unit's body, with its `allow` flag for reads and its
      early `next(...)` returns. */
  method PermissionMiddleware(action: ActionType, readRoles: Option<seq<string>>, writeRoles: Option<seq<string>>,
                              roleResolver: Option<Resolver>, context: CallContext) returns (outcome: UnitOutcome)
    ensures roleResolver.None? ==> outcome == Continue
    ensures roleResolver.Some? && roleResolver.value(context).Throws? ==>
      outcome == if roleResolver.value(context).thrown.Some? then Abort(roleResolver.value(context).thrown.value)
                 else Continue
    ensures roleResolver.Some? && roleResolver.value(context).Role? ==>
      && (outcome.Continue? <==> Permits(action, readRoles, writeRoles, roleResolver.value(context).role))
      && (outcome.Abort? ==> outcome.error == PermissionDenied(ForbiddenMessage))
    ensures outcome == PermissionVerdict(action, readRoles, writeRoles, roleResolver, context)
  {
    if roleResolver.Some? {
      var resolved := roleResolver.value(context);
      match resolved
      case Throws(error) =>
        // `next(error)` with a falsy `error` is `next()`.
        if error.Some? {
          return Abort(error.value);
        }
        return Continue;
      case Role(role) =>
        if action.Read? {
          var allow := false;
          if writeRoles.Some? {
            if role in writeRoles.value {
              allow := true;
            }
          }
          if readRoles.Some? {
            if role in readRoles.value {
              allow := true;
            }
          }
          if !allow {
            return Abort(PermissionDenied(ForbiddenMessage));
          }
        } else if action.Create? || action.Update? || action.Delete? {
          if writeRoles.Some? && |writeRoles.value| > 0 {
            if role !in writeRoles.value {
              return Abort(PermissionDenied(ForbiddenMessage));
            }
          } else {
            return Abort(PermissionDenied(ForbiddenMessage));
          }
        }
        return Continue;
    } else {
      return Continue;
    }
  }

  /** The chain `createRouteMiddlewares` returns. A single caller middleware
      comes first; an array of caller middleware is lost, because the result
      of `concat` is discarded; the permission unit comes last, and only when
      `checkPermission` is set. */
  function RouteChain(action: ActionType, readRoles: Option<seq<string>>, writeRoles: Option<seq<string>>,
                      routeConfig: RouteConfig): (r: seq<Unit>)
    ensures |r| == (if routeConfig.middleware.Some? && routeConfig.middleware.value.Single? then 1 else 0)
                 + (if Truthy(routeConfig.checkPermission) then 1 else 0)
    ensures forall i :: 0 <= i < |r| && r[i].Custom? ==> i == 0 && routeConfig.middleware == Some(Single(r[i].run))
    ensures forall i :: 0 <= i < |r| && r[i].Permission? ==>
      && i == |r| - 1
      && r[i] == Permission(action, readRoles, writeRoles, routeConfig.roleResolver)
    ensures (exists i :: 0 <= i < |r| && r[i].Permission?) <==> Truthy(routeConfig.checkPermission)
    ensures routeConfig.middleware.Some? && routeConfig.middleware.value.Many? ==>
      forall i :: 0 <= i < |r| ==> r[i].Permission?
  {
    var custom := if routeConfig.middleware.Some? && routeConfig.middleware.value.Single?
      then [Custom(routeConfig.middleware.value.unit)] else [];
    var permission := if Truthy(routeConfig.checkPermission)
      then [Permission(action, readRoles, writeRoles, routeConfig.roleResolver)] else [];
    var r := custom + permission;
    assert Truthy(routeConfig.checkPermission) ==> r[|r| - 1].Permission?;
    r
  }

  /** `createRouteMiddlewares`, pushing onto `allMiddlewares` as the source
      does. */
  method CreateRouteMiddlewares(action: ActionType, readRoles: Option<seq<string>>, writeRoles: Option<seq<string>>,
                                routeConfig: RouteConfig) returns (allMiddlewares: seq<Unit>)
    ensures allMiddlewares == RouteChain(action, readRoles, writeRoles, routeConfig)
  {
    allMiddlewares := [];
    if routeConfig.middleware.Some? {
      match routeConfig.middleware.value
      case Many(units) =>
        if |units| > 0 {
          // `concat` builds a new array, which nobody keeps.
          var concatenated := allMiddlewares + seq(|units|, i requires 0 <= i < |units| => Custom(units[i]));
        }
      case Single(unit) =>
        allMiddlewares := allMiddlewares + [Custom(unit)];
    }
    if routeConfig.checkPermission == Some(true) {
      allMiddlewares := allMiddlewares + [Permission(action, readRoles, writeRoles, routeConfig.roleResolver)];
    }
  }

  // ---------------------------------------------------------------------
  // Chain executor
  // ---------------------------------------------------------------------

  /** What one unit passes to `next` for a given call context. */
  function UnitStep(u: Unit, context: CallContext): UnitOutcome {
    match u
    case Custom(run) => run(context)
    case Permission(action, readRoles, writeRoles, resolver) =>
      PermissionVerdict(action, readRoles, writeRoles, resolver, context)
  }

  /** The settled state of the promise `executeRouteMiddlewares` returns. */
  datatype ChainResult = Resolved | Rejected(error: Error)

  /** A run of the chain: how it completed and how many units ran. */
  datatype ChainRun = ChainRun(error: Option<Error>, ran: nat)

  /** The units run in order; the first one that passes an error to `next`
      completes the run with that error, and no later unit runs. */
  function RunUnits(context: CallContext, chain: seq<Unit>): (r: ChainRun)
    ensures r.ran <= |chain|
    ensures forall i :: 0 <= i < r.ran - 1 ==> UnitStep(chain[i], context).Continue?
    ensures r.error.None? ==> r.ran == |chain| && forall i :: 0 <= i < |chain| ==> UnitStep(chain[i], context).Continue?
    ensures r.error.Some? ==> 0 < r.ran && UnitStep(chain[r.ran - 1], context) == Abort(r.error.value)
  {
    if chain == [] then ChainRun(None, 0)
    else
      match UnitStep(chain[0], context)
      case Abort(e) => ChainRun(Some(e), 1)
      case Continue =>
        var rest := RunUnits(context, chain[1..]);
        assert forall i :: 1 <= i < |chain| ==> chain[i] == chain[1..][i - 1];
        ChainRun(rest.error, rest.ran + 1)
  }

  /** `executeRouteMiddlewares`: an empty chain resolves at once; otherwise
      the promise settles with the run's completion. */
  function ExecuteRouteMiddlewares(context: CallContext, routeMiddlewares: seq<Unit>): (r: ChainResult)
    ensures routeMiddlewares == [] ==> r == Resolved
    ensures r.Resolved? <==> forall i :: 0 <= i < |routeMiddlewares| ==> UnitStep(routeMiddlewares[i], context).Continue?
    ensures r.Rejected? ==>
      (exists k :: 0 <= k < |routeMiddlewares|
        && UnitStep(routeMiddlewares[k], context) == Abort(r.error)
        && forall i :: 0 <= i < k ==> UnitStep(routeMiddlewares[i], context).Continue?)
  {
    if |routeMiddlewares| == 0 then Resolved
    else
      var run := RunUnits(context, routeMiddlewares);
      match run.error
      case Some(err) =>
        assert UnitStep(routeMiddlewares[run.ran - 1], context) == Abort(err);
        Rejected(err)
      case None => Resolved
  }

  // ---------------------------------------------------------------------
  // Storage engine
  // ---------------------------------------------------------------------

  /** The storage helpers the handlers call, one per query shape. */
  datatype StorageCall =
    | CreateDocument
    | InsertManyDocuments
    | FindByIdDocument
    | FindOneDocument
    | FindDocuments
    | FindDocumentsAndStreamResponse
    | FindByIdAndUpdateDocument
    | FindOneAndUpdateDocument
    | UpdateManyDocuments
    | FindByIdAndDeleteDocument
    | FindOneAndDeleteDocument
    | DeleteManyDocuments
    | CountDocumentsUtil
    | EstimatedDocumentCountUtil

  /** The state of the database at the moment a query runs. */
  datatype DbState = DbState(version: nat)

  /** The database behind Mongoose: what a storage helper settles with for a
      model, a request and the current database state. */
  type Engine = (StorageCall, ModelRef, Request, DbState) -> Result<Json, Error>

  // ---------------------------------------------------------------------
  // Live query filter
  // ---------------------------------------------------------------------

  /** A key naming a query operator, such as `$and` or `$gt`. */
  predicate IsOperatorKey(key: string) {
    |key| > 0 && key[0] == '$'
  }

  const FullDocumentPrefix: string := "fullDocument."

  /** `updateKey`: a field name becomes the same field of the change event's
      `fullDocument`; an operator stays as it is. */
  function UpdateKey(key: string): (r: string)
    ensures IsOperatorKey(r) <==> IsOperatorKey(key)
    ensures IsOperatorKey(key) ==> r == key
    ensures !IsOperatorKey(key) ==> |r| == |FullDocumentPrefix| + |key| && r[..|FullDocumentPrefix|] == FullDocumentPrefix
  {
    if IsOperatorKey(key) then key else FullDocumentPrefix + key
  }

  /** The inverse of `UpdateKey`: the field name a rewritten key came from. */
  function StripFullDocument(key: string): string {
    var n := |FullDocumentPrefix|;
    if |key| >= n && key[..n] == FullDocumentPrefix then key[n..] else key
  }

  /** Stripping the prefix undoes the rewrite, for every key. */
  lemma UpdateKeyRoundTrip(key: string)
    ensures StripFullDocument(UpdateKey(key)) == key
  {
    var n := |FullDocumentPrefix|;
    if IsOperatorKey(key) {
      if |key| >= n {
        assert key[..n][0] == '$';
      }
    } else {
      assert (FullDocumentPrefix + key)[n..] == key;
    }
  }

  /** No condition key is rewritten to `operationType`. */
  lemma UpdateKeyAvoidsOperationType(key: string)
    ensures UpdateKey(key) != "operationType"
  {
    if !IsOperatorKey(key) {
      assert UpdateKey(key)[0] == 'f';
    }
  }

  /** With `deep` set, the rewrite of a parsed filter can be undone: the
      filter's structure, values and order are kept, and only its field names
      change, at every depth. */
  lemma LiveConditionsRoundTrip(conditions: Json)
    requires conditions.JObject? && WellFormed(conditions)
    ensures TransformObjKeys(conditions, UpdateKey, true).Success?
    ensures Mapped(TransformObjKeys(conditions, UpdateKey, true).value, StripFullDocument, true) == conditions
  {
    forall k ensures StripFullDocument(UpdateKey(k)) == k {
      UpdateKeyRoundTrip(k);
    }
    MappedRoundTrip(conditions, UpdateKey, StripFullDocument, true);
  }

  /** The own properties object spread copies: an object's entries, or an
      array's elements under their indices. */
  function SpreadEntries(j: Json): Entries {
    match j
    case JObject(es) => es
    case JArray(xs) => seq(|xs|, i requires 0 <= i < |xs| => (NatToString(i), xs[i]))
    case _ => []
  }

  const InsertOrUpdate: Json := JObject([("$in", JArray([JString("insert"), JString("update")]))])
  const DeleteOnly: Json := JObject([("$in", JArray([JString("delete")]))])

  /** The object literal `{operationType: {$in: ['insert', 'update']},
      ...updatedConditions}`. Spreading an array copies its elements under
      the index keys "0", "1", ..., and an object lists such integer-like keys
      before every other key (section 10.1.11.1 of ECMA-262), so for an array
      the `operationType` clause comes last. The keys of a rewritten filter
      object start with `$` or `f` and are never integer-like. */
  function ChangeBranch(updated: Json): Json {
    if updated.JArray? then JObject(SpreadEntries(updated) + [("operationType", InsertOrUpdate)])
    else JObject(Assigned([("operationType", InsertOrUpdate)] + SpreadEntries(updated)))
  }

  /** The one-stage pipeline `[{$match: {$or: [branch, {operationType:
      {$in: ['delete']}}]}}]`. */
  function MatchStage(branch: Json): Json {
    JArray([JObject([("$match", JObject([("$or", JArray([branch, JObject([("operationType", DeleteOnly)])]))]))])])
  }

  /** The pipeline `findDocumentsLive` subscribes with, or the `TypeError`
      `transformObjKeys` throws for a filter that is not an object. */
  function LiveMatch(conditions: Json): (r: Result<Json, Error>)
    ensures !IsObject(conditions) ==> r == Failure(TypeError(NotAnObjectMessage(conditions)))
    ensures r.Failure? ==> r.error.TypeError?
    ensures conditions.JObject? ==> r.Success?
  {
    match TransformObjKeys(conditions, UpdateKey, true)
    case Failure(e) => Failure(e)
    case Success(updated) => Success(MatchStage(ChangeBranch(updated)))
  }

  /** For a filter object, the first branch of the `$or` is the
      `operationType` clause followed by the rewritten filter, entry for
      entry and in order; no filter key can replace the clause. */
  lemma LiveMatchOnObject(conditions: Json)
    requires conditions.JObject?
    ensures LiveMatch(conditions) == Success(MatchStage(
      JObject([("operationType", InsertOrUpdate)] + Mapped(conditions, UpdateKey, true).entries)))
  {
    var updated := Mapped(conditions, UpdateKey, true);
    assert TransformObjKeys(conditions, UpdateKey, true) == Success(updated);
    MappedAvoidsOperationType(conditions.entries);
    ConsDistinct(("operationType", InsertOrUpdate), updated.entries);
    AssignedDistinct([("operationType", InsertOrUpdate)] + updated.entries);
  }

  lemma MappedAvoidsOperationType(es: Entries)
    ensures !HasKey(Mapped(JObject(es), UpdateKey, true).entries, "operationType")
  {
    MappedKeys(es, UpdateKey, true, "operationType");
    forall i | 0 <= i < |es| ensures UpdateKey(es[i].0) != "operationType" {
      UpdateKeyAvoidsOperationType(es[i].0);
    }
  }

  lemma ConsDistinct(p: (string, Json), rest: Entries)
    requires DistinctKeys(rest) && !HasKey(rest, p.0)
    ensures DistinctKeys([p] + rest)
  {
    var ps := [p] + rest;
    forall a, b | 0 <= a < b < |ps| ensures ps[a].0 != ps[b].0 {
      assert ps[b] == rest[b - 1];
      if a > 0 {
        assert ps[a] == rest[a - 1];
      }
    }
  }

  /** Whatever the filter, array or object, no key it brings can replace
      the `operationType` clause of the first `$or` branch: the clause is
      followed by the rewritten entries of a filter object, and follows the
      index keys of a filter array. */
  lemma LiveMatchKeepsOperationType(conditions: Json)
    requires TransformObjKeys(conditions, UpdateKey, true).Success?
    ensures LiveMatch(conditions).Success?
    ensures var updated := TransformObjKeys(conditions, UpdateKey, true).value;
      var branch := ChangeBranch(updated);
      && LiveMatch(conditions).value == MatchStage(branch)
      && !HasKey(SpreadEntries(updated), "operationType")
      && (updated.JObject? ==> branch.entries == [("operationType", InsertOrUpdate)] + updated.entries)
      && (updated.JArray? ==> branch.entries == SpreadEntries(updated) + [("operationType", InsertOrUpdate)])
  {
    var updated := TransformObjKeys(conditions, UpdateKey, true).value;
    var rest := SpreadEntries(updated);
    if updated.JObject? {
      assert updated == Mapped(conditions, UpdateKey, true);
      MappedAvoidsOperationType(conditions.entries);
      ConsDistinct(("operationType", InsertOrUpdate), rest);
      AssignedDistinct([("operationType", InsertOrUpdate)] + rest);
    } else {
      assert !HasKey(rest, "operationType") by {
        forall i | 0 <= i < |rest| ensures rest[i].0 != "operationType" {
          assert rest[i].0 == NatToString(i);
          assert "operationType"[0] == 'o';
        }
      }
    }
  }

  // ---------------------------------------------------------------------
  // watch options
  // ---------------------------------------------------------------------

  /** The change-stream options handed to `collection.watch`; an absent
      field is one that was never assigned. */
  datatype ChangeStreamOptions = ChangeStreamOptions(
    fullDocument: Option<string>,
    maxAwaitTimeMS: Option<int>,
    resumeAfter: Option<string>,
    startAfter: Option<string>,
    batchSize: Option<int>,
    readPreference: Option<string>)

  const NoOptions: ChangeStreamOptions := ChangeStreamOptions(None, None, None, None, None, None)

  /** The options `findDocumentsLive` subscribes with. */
  const UpdateLookup: ChangeStreamOptions := NoOptions.(fullDocument := Some("updateLookup"))

  const UndefinedOptionsMessage: string := "Cannot read properties of undefined (reading 'fullDocument')"

  /** A string option is passed on when it is not empty. */
  function StringOption(s: string): Option<string> {
    if |s| > 0 then Some(s) else None
  }

  /** A number option is passed on when it is positive. */
  function NumberOption(n: int): Option<int> {
    if n > 0 then Some(n) else None
  }

  /** The options `watchUtil` builds, or the `TypeError` reading a field of
      absent options throws. */
  function WatchOptionsOf(options: Option<WatchRequestOptions>): Result<ChangeStreamOptions, Error> {
    match options
    case None => Failure(TypeError(UndefinedOptionsMessage))
    case Some(o) =>
      Success(ChangeStreamOptions(
        StringOption(o.fullDocument), NumberOption(o.maxAwaitTimeMS), StringOption(o.resumeAfter),
        StringOption(o.startAfter), NumberOption(o.batchSize), StringOption(o.readPreference)))
  }

  /** The option toggles of `watchUtil`: each option is assigned on its own
      test, and one option never affects another. */
  method WatchOptions(options: Option<WatchRequestOptions>) returns (r: Result<ChangeStreamOptions, Error>)
    ensures r == WatchOptionsOf(options)
    ensures options.None? <==> r.Failure?
    ensures options.Some? ==>
      var o, n := options.value, r.value;
      && (n.fullDocument.Some? <==> |o.fullDocument| > 0)
      && (n.maxAwaitTimeMS.Some? <==> o.maxAwaitTimeMS > 0)
      && (n.resumeAfter.Some? <==> |o.resumeAfter| > 0)
      && (n.startAfter.Some? <==> |o.startAfter| > 0)
      && (n.batchSize.Some? <==> o.batchSize > 0)
      && (n.readPreference.Some? <==> |o.readPreference| > 0)
      && (n.fullDocument.Some? ==> n.fullDocument.value == o.fullDocument)
      && (n.maxAwaitTimeMS.Some? ==> n.maxAwaitTimeMS.value == o.maxAwaitTimeMS)
      && (n.resumeAfter.Some? ==> n.resumeAfter.value == o.resumeAfter)
      && (n.startAfter.Some? ==> n.startAfter.value == o.startAfter)
      && (n.batchSize.Some? ==> n.batchSize.value == o.batchSize)
      && (n.readPreference.Some? ==> n.readPreference.value == o.readPreference)
  {
    if options.None? {
      return Failure(TypeError(UndefinedOptionsMessage));
    }
    var o := options.value;
    var nOpt := NoOptions;
    if |o.fullDocument| > 0 {
      nOpt := nOpt.(fullDocument := Some(o.fullDocument));
    }
    if o.maxAwaitTimeMS > 0 {
      nOpt := nOpt.(maxAwaitTimeMS := Some(o.maxAwaitTimeMS));
    }
    if |o.resumeAfter| > 0 {
      nOpt := nOpt.(resumeAfter := Some(o.resumeAfter));
    }
    if |o.startAfter| > 0 {
      nOpt := nOpt.(startAfter := Some(o.startAfter));
    }
    if o.batchSize > 0 {
      nOpt := nOpt.(batchSize := Some(o.batchSize));
    }
    if |o.readPreference| > 0 {
      nOpt := nOpt.(readPreference := Some(o.readPreference));
    }
    r := Success(nOpt);
  }
}
