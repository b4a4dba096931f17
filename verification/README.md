# gamoraa-mongostore request gate, modelled in Dafny

This project models the request gate of the `gamoraa-mongostore` gRPC
service. The gate is the code that sits between a client and Mongoose.

**Handlers.** For each of its sixteen operations (`create`, `insertMany`,
`findById`, `findOne`, `find`, `findAndStreamResponse`, `findLive`, the
three update and three delete variants, the two counts, and `watch`), a
handler does four things in order:
1. looks the collection up in the model registry;
2. refuses a disabled route;
3. builds the route's middleware chain and runs it;
4. only then calls storage.

A single-result handler answers with one `{data: JSON.stringify(result)}`
message. `findAndStreamResponse` pipes a query cursor. `findLive` writes an
initial snapshot, then subscribes to a change stream. The stream's filter is
the request's conditions with every field renamed to `fullDocument.<field>`.
Each change event is turned into a fresh re-query. `watch` subscribes with
the caller's pipeline and whichever options are set.

**Modules.**
- `Wrappers`: `Option` and `Result`.
- `JsonValues`: JavaScript values as `JSON.parse` makes them. An object is
  its list of own properties in insertion order. `Put` and `Assigned` are
  property assignment and object spread.
- `Types`: the configuration types (`src/types.ts`).
- `MapObj`: the recursive key rename (`src/utils/map-obj.ts`).
- `ServiceUtils`: the registry, the route chain, the permission rule, the
  chain executor, the live filter and the `watch` options
  (`src/utils/service-utils.ts`).
- `TransformUtils`: the response message and the class that turns change
  events into snapshots (`src/utils/transform-utils.ts`).
- `MongoStoreService`: the handlers (`src/mongo-store-service.ts`).

**Code outside the repository** is modelled as plain values:
- A caller middleware unit is a function from the call context to "next"
  or "next with an error".
- A role resolver is a function from the call context to a role or to the
  error it throws.
- Mongoose and the database are one storage engine. It maps a storage
  helper, a model, a request and the current database state to a result or
  an error.
- A handler's behaviour is the sequence of effects it has: storage calls,
  `send`, `write`, `halt`, subscriptions and pipes.
- `MongoStoreService.Handle` mirrors a handler's early returns. It is proved
  equal to the specification function `Transcript`.

**Three details of the source that shape the model:**
- The service registers sixteen handlers, the ones listed above.
- An array of caller middleware is dropped: `allMiddlewares.concat(...)`
  (`src/utils/service-utils.ts:105`) returns a new array that is
  discarded. Only a single middleware unit is kept (`ServiceUtils.RouteChain`).
- A role resolver that rejects with a falsy value (`Promise.reject()`, say)
  makes the permission unit call `next` with that value, which carries no
  error (`src/utils/service-utils.ts:158-159`, `:186`), so the chain
  resolves. The model keeps this behaviour (`MongoStoreService.FalsyRejectionPassesGate`).

## Model

| member | source | states |
|---|---|---|
| `JsonValues.Put` | src/utils/map-obj.ts:50 | Assigning a property adds exactly that key. An existing key keeps its position and takes the new value. A new key goes last. Every other key reads as before. |
| `JsonValues.AssignedGet` | src/utils/map-obj.ts:41-51 | After pairs are assigned in order, reading a key gives the value of the last pair with that key. |
| `JsonValues.AssignedOrder` | src/utils/map-obj.ts:41-51 | Assigned keys come out in the order of their first appearance. |
| `JsonValues.AssignedKeepsFirst` | src/utils/map-obj.ts:41-51 | Assigning pairs in order into a fresh target: the first pair assigned keeps first place and its value when no later pair has its key. This is a property of insertion order alone; integer-like keys, which JavaScript lists first, are not considered. |
| `Types.AllOperationsComplete` | src/types.ts:17-37 | The sixteen per-operation route slots cover every operation. |
| `MapObj.Mapped` | src/utils/map-obj.ts:31-53 | Mapping keeps an array an array and an object an object. It keeps an array's length. It leaves elements that are not objects unchanged. |
| `MapObj.MapObject` | src/utils/map-obj.ts:10-54 | The recursive `mapObject` computes `Mapped`. |
| `MapObj.MapEntries` | src/utils/map-obj.ts:41-51 | The entry loop builds a fresh target. The target equals the renamed pairs assigned in visiting order. |
| `MapObj.MapArray` | src/utils/map-obj.ts:31-36 | `mapArray` maps each element on its own, in order. |
| `MapObj.MapObj` | src/utils/map-obj.ts:56-64 | Fails exactly when the input is not a non-null object, and then with a TypeError. |
| `MapObj.Transform` | src/utils/map-obj.ts:66-76 | `transform` fails exactly when the input is not an object, with the `Expected an object` TypeError of that input. On success it gives the key-renaming map of the input. |
| `MapObj.TransformEach` | src/utils/map-obj.ts:83-86 | An array input succeeds exactly when every element is an object. Each element is mapped separately, in order. Otherwise the TypeError names the first element that is not an object. |
| `MapObj.TransformObjKeys` | src/utils/map-obj.ts:78-88 | A non-object input throws the `Expected an object` TypeError. Any other non-array input gives its key-renaming map. An array input succeeds exactly when every element is an object; then each element is mapped in place and order, and otherwise the TypeError is that of the first non-object element. |
| `MapObj.ShallowRenamesKeysOnly` | src/utils/map-obj.ts:44-50 | With `deep` false and a renaming that merges no keys, only the top-level keys change. Order and every value, nested objects included, are kept. |
| `MapObj.LaterEntryWins` | src/utils/map-obj.ts:41-51 | When keys are renamed onto the same key, the entry visited last supplies the value. With `deep` false, that value is the input value itself. |
| `MapObj.MappedKeys` | src/utils/map-obj.ts:41-51 | The output keys are exactly the renamed input keys. |
| `MapObj.MappedKeyOrder` | src/utils/map-obj.ts:41-51 | Output keys follow the order in which renamed keys first appear in the input. |
| `MapObj.MappedRoundTrip` | src/utils/map-obj.ts:66-76 | Mapping with a renaming and then with its inverse gives back the input. So the rewrite changes keys only, at every depth `deep` reaches, and keeps array length and order. |
| `ServiceUtils.GetModelRouteWithDefaults` | src/utils/service-utils.ts:19-28 | `disable` and `checkPermission` default to false. Fields the caller set override the defaults. Middleware and resolver are kept. |
| `ServiceUtils.WithDefaults` | src/utils/service-utils.ts:58-80 | All sixteen route configurations are present and defaulted. Model and role lists are copied. Each caller route keeps its middleware, resolver and flags. |
| `ServiceUtils.ModelsMap` | src/utils/service-utils.ts:34-84 | The registry's keys are exactly the registered model names, and every entry is defaulted. |
| `ServiceUtils.ModelsMapLastWins` | src/utils/service-utils.ts:81 | The entry under a name is the last registration with that name. |
| `ServiceUtils.CreateModelsMap` | src/utils/service-utils.ts:34-84 | The loop builds exactly `ModelsMap` of the registrations. |
| `ServiceUtils.CheckModelExist` | src/utils/service-utils.ts:204-214 | No error exactly for a non-empty registered name. An empty name gives "Model value required". An unregistered name gives "Model not defined on server". Both are InvalidArgument. |
| `ServiceUtils.WriteNeedsWriteRoles` | src/utils/service-utils.ts:140-156 | A create, update or delete is permitted only with a present, non-empty `writeRoles`. |
| `ServiceUtils.PermissionMiddleware` | src/utils/service-utils.ts:114-164 | With no resolver the unit passes. A resolver rejection with a truthy value is forwarded unchanged, and one with a falsy value lets the unit pass. Otherwise the unit passes exactly when `Permits` holds (role in either list for Read, in `writeRoles` for the other actions), and any refusal is PermissionDenied "Permission not allowed". |
| `ServiceUtils.RouteChain` | src/utils/service-utils.ts:99-169 | A single caller middleware comes first. An array of middleware contributes nothing. Exactly one permission unit, carrying the action, the role lists and the resolver, comes last, and only when `checkPermission` is set. |
| `ServiceUtils.CreateRouteMiddlewares` | src/utils/service-utils.ts:93-170 | The push-based builder returns `RouteChain`. |
| `ServiceUtils.RunUnits` | src/utils/service-utils.ts:181-196 | Units run in order. A run without error ran every unit and all passed. A run with an error stopped at the first unit that passed an error, and that error is the result. |
| `ServiceUtils.ExecuteRouteMiddlewares` | src/utils/service-utils.ts:177-197 | An empty chain resolves. The promise resolves exactly when every unit passes. A rejection carries the error of a unit all of whose predecessors passed. |
| `ServiceUtils.UpdateKey` | src/utils/service-utils.ts:334-341 | `$` keys are kept. Every other key, the empty key included, gets the `fullDocument.` prefix. A key starts with `$` after the rewrite exactly when it did before. |
| `ServiceUtils.UpdateKeyRoundTrip` | src/utils/service-utils.ts:334-341 | Stripping the prefix undoes `UpdateKey` for every key. |
| `ServiceUtils.UpdateKeyAvoidsOperationType` | src/utils/service-utils.ts:334-355 | No condition key is rewritten to `operationType`. |
| `ServiceUtils.LiveConditionsRoundTrip` | src/utils/service-utils.ts:343-345 | For a parsed filter object, the deep rewrite succeeds and can be undone. Only field names change, at every depth. |
| `ServiceUtils.LiveMatch` | src/utils/service-utils.ts:329-369 | A filter that is not an object fails with the `transformObjKeys` TypeError. A filter object always yields a pipeline. |
| `ServiceUtils.LiveMatchOnObject` | src/utils/service-utils.ts:347-362 | For a filter object, the pipeline is `[{$match: {$or: [B, {operationType: {$in: ['delete']}}]}}]`. B is the insert/update clause followed by the rewritten filter, entry for entry. |
| `ServiceUtils.LiveMatchKeepsOperationType` | src/utils/service-utils.ts:352-355 | For any filter the spread brings no `operationType` key, so the clause survives. For a filter object the clause comes first, followed by the rewritten entries. For a filter array the index keys come first and the clause last. |
| `ServiceUtils.WatchOptions` | src/utils/service-utils.ts:511-524 | Absent options throw a TypeError. Otherwise each of the six options is set exactly when its own test holds (non-empty string, positive number), and it is set to the given value. |
| `TransformUtils.TransformResponse` | src/utils/transform-utils.ts:5-7 | The response carries exactly the result it wraps. |
| `TransformUtils.Requery` | src/utils/transform-utils.ts:26-29 | One callback per event. The result is a snapshot when the stored query succeeds, or the query's error with no data. |
| `TransformUtils.Snapshots` | src/utils/transform-utils.ts:20-30 | Events are answered in order, each with the re-query in its database state. Every callback but the last is data. The run covers every event unless a re-query failed; then that failure is the last callback. |
| `TransformUtils.SnapshotsAfterFailure` | src/mongo-store-service.ts:299-307 | Once a run has failed, later events add no callback. |
| `TransformUtils.SnapshotsOfOneState` | src/utils/transform-utils.ts:26-27 | While the database does not change, every event gets the same answer, whatever the event says: the same data for each event, or one failure that ends the run. It follows directly from the contract of `Snapshots`. |
| `TransformUtils.ChangeStreamToFindRecordsTransform.constructor` | src/utils/transform-utils.ts:10-19 | Stores the model and request, which never change after construction. |
| `TransformUtils.ChangeStreamToFindRecordsTransform.Transform` | src/utils/transform-utils.ts:21-30 | Each event appends exactly one callback, the re-query of the stored request. The event's content is not read. |
| `TransformUtils.ChangeStreamToFindRecordsTransform.TransformAll` | src/utils/transform-utils.ts:20-30 | A run of events appends exactly `Snapshots` of their database states. Feeding stops at the first failed re-query, when the pipeline destroys the errored stream. |
| `MongoStoreService.ActionOf` | src/mongo-store-service.ts:62-653 | create and insertMany are Create. The three update handlers are Update. The three delete handlers are Delete. The other eight handlers are Read. |
| `MongoStoreService.SingleResultCall` | src/mongo-store-service.ts:62-653 | Every handler except `findAndStreamResponse`, `findLive` and `watch` answers with a single storage result. |
| `MongoStoreService.Gate` | src/mongo-store-service.ts:63-84 | The gate lets a request through exactly when: the collection is registered, the route is not disabled, and the route chain resolves. It then yields that collection's entry. |
| `MongoStoreService.Serve` | src/mongo-store-service.ts:83-89 | The `try` block after the chain computes `Served`, covering all sixteen handlers. |
| `MongoStoreService.ServeLive` | src/mongo-store-service.ts:292-309 | `findLive` after its chain: one query and its write, then the live subscription with the full-document lookup, and a halt with the query's or the condition's error at whichever step fails. |
| `MongoStoreService.Handle` | src/mongo-store-service.ts:62-90 | A handler with its early returns produces exactly `Transcript`. |
| `MongoStoreService.MongoStoreService` | src/mongo-store-service.ts:48-53 | The registry is `ModelsMap` of `modelsOptions` and is valid. It is empty when `modelsOptions` is absent. |
| `MongoStoreService.UnknownCollectionHalts` | src/mongo-store-service.ts:63-67 | An empty or unregistered collection halts with the matching InvalidArgument. Nothing else happens and storage is not called. |
| `MongoStoreService.DisabledRouteHalts` | src/mongo-store-service.ts:72-74 | A disabled route halts with NotFound "Not found", whatever the request, middleware, role or database. |
| `MongoStoreService.RejectedChainHalts` | src/mongo-store-service.ts:83-89 | A rejected chain halts with that same error, and storage is not called. |
| `MongoStoreService.PermissionDeniedHalts` | src/mongo-store-service.ts:76-89 | With `checkPermission` set and a resolved role the rule refuses, the handler halts with PermissionDenied and storage is not called. |
| `MongoStoreService.FalsyRejectionPassesGate` | src/utils/service-utils.ts:158-188 | On a checked route with no other middleware, a resolver that rejects with a falsy value lets the request through the gate. Every handler but `watch` then reaches storage, whatever the role lists say. |
| `MongoStoreService.StorageCalledOnlyThroughGate` | src/mongo-store-service.ts:62-90 | Storage is reached if and only if the gate passes, except for a `watch` without options. A `watch` whose `pipeline` text is not valid JSON also halts before storage in the source (`JSON.parse` at src/utils/service-utils.ts:523); the model receives the pipeline already parsed, so that case does not arise. |
| `MongoStoreService.SingleResultOutcome` | src/mongo-store-service.ts:83-89 | After the gate, a single-result handler calls storage once. It then sends exactly one response or halts with the storage error unchanged. |
| `MongoStoreService.FindLiveSnapshotFirst` | src/mongo-store-service.ts:290-307 | `findLive` first runs the find. A subscription or pipe only ever follows the written initial snapshot. |
| `MongoStoreService.FindLiveOnObject` | src/mongo-store-service.ts:290-307 | For a filter object, `findLive` does, in order: find, write the snapshot, subscribe with the rewritten filter and `updateLookup`, pipe the snapshots. |
| `MongoStoreService.EmptyRegistryRejectsAll` | src/mongo-store-service.ts:53 | Without registrations every request halts with InvalidArgument. |
| `MongoStoreService.ExampleRoutesOpen` | examples/example.ts:38-48 | In the example server the `authors` routes have an empty chain and always pass the gate. |
| `MongoStoreService.ExampleStoriesNotDefined` | examples/example.ts:30-48 | The example registers the story model as `storeis`, so a request for `stories` halts with "Model not defined on server". |
| `MongoStoreService.GuestCannotCreateAuthor` | src/utils/service-utils.ts:140-156 | With `writeRoles` `["admin"]` and a checked `create`, a `guest` role is refused before storage, while an unchecked `findById` passes the gate. |

## Left out

- gRPC transport is not modelled: `server.addService`, the proto path, `done`, and service-wide middleware installed with `serviceContext.with`. This is registration and I/O outside the gate.
- Node stream plumbing is not modelled: `pipeline`, backpressure, cursor streaming, and the pipeline error callbacks that swallow errors. A handler's pipe is one `Pipe` effect naming its source.
- The `Middie` runner is foreign code. The model assumes every unit calls `next` exactly once, runs the units in order and stops at the first error. A unit that never calls `next`, and any change a unit makes to the call context, are not modelled.
- Promises and async scheduling are modelled as sequential steps.
- The Mongoose queries (`createDocument` through `estimatedDocumentCountUtil`, src/utils/service-utils.ts:221-504) are one opaque storage engine, including their query options, `skip`/`limit` gating and error wrapping. `findAndStreamResponse` is modelled as creating its cursor without failing.
- `JSON.parse` and `JSON.stringify` are not modelled (src/utils/json-utils.ts is not part of this model). Requests carry already-parsed `conditions` and `pipeline`. A response carries the value it serialises. Numbers are integers.
- `mapObject` is modelled only with the mapper that `transform` builds, its only caller. A mapper that changes values is not modelled.
- The `isSeen` cycle cache and the `RegExp`/`Error`/`Date` exclusion are not modelled. Parsed JSON is an acyclic tree of plain values.
- Mutation of the input is not modelled, because values are immutable: the model cannot show that the input is left untouched.
- JavaScript's own ordering of integer-like keys is not modelled, except in the first `$or` branch of the live filter (`ServiceUtils.ChangeBranch`). Elsewhere object keys keep insertion order.
- An explicit `disable: undefined` overriding the default is not modelled: an absent field and `undefined` are the same `None`.
- Object-prototype lookups in `modelsMap[model] == null` are not modelled. The registry is a map.
- `MongoStoreService.Handle` requires a registry built by `createModelsMap`, the only kind the service builds. A route configuration missing from the registry cannot occur.
- `ServiceUtils.WatchOptions`: the Node.js wording of the TypeError thrown for absent options is an assumption. The error kind is what the model relies on.
- `TransformUtils.SnapshotsOfOneState` holds because a re-query is a function of the database state. How the database changes between events is not modelled.
- `JsonValues.Put` appends the key `__proto__` as an own property, where JavaScript calls the prototype setter instead. `updateKey` never produces that key.
- `ServiceUtils.ExecuteRouteMiddlewares` assumes that `Middie` treats `next` called with a falsy value as `next()`. That is `Middie`'s behaviour, which is foreign code.
