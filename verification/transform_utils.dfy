/**
 * The response shape and the change-event bridge of `findLive`
 * (`src/utils/transform-utils.ts`).
 */
module TransformUtils {
  import opened Wrappers
  import opened JsonValues
  import opened Types
  import opened ServiceUtils

  /** The response message `{data: JSON.stringify(doc)}`. The serialisation
      itself is not modelled: the message carries the value it serialises. */
  datatype Response = Data(payload: Json)

  /** `transformResponse`: wraps one result in a response message. */
  function TransformResponse(doc: Json): (r: Response)
    ensures r.payload == doc
  {
    Data(doc)
  }

  /** What one call of the transform's `callback` delivers: a response, or
      the error with no data. */
  datatype Callback = Emit(response: Response) | Fail(error: Error)

  /** One re-query: `findDocuments` on the stored model and request, run
      against the database as it stands when the event arrives. */
  function Requery(engine: Engine, model: ModelRef, request: Request, db: DbState): (c: Callback)
    ensures c.Emit? <==> engine(FindDocuments, model, request, db).Success?
    ensures c.Emit? ==> c.response == TransformResponse(engine(FindDocuments, model, request, db).value)
    ensures c.Fail? ==> c.error == engine(FindDocuments, model, request, db).error
  {
    match engine(FindDocuments, model, request, db)
    case Success(docs) => Emit(TransformResponse(docs))
    case Failure(err) => Fail(err)
  }

  /** The callbacks so far end with an error. */
  predicate Failed(cs: seq<Callback>) {
    |cs| > 0 && cs[|cs| - 1].Fail?
  }

  /** The callbacks for a run of events, given the database state each
      event's re-query sees. A failed re-query errors the transform, and the
      pipeline destroys it: no later event is re-queried. */
  function Snapshots(engine: Engine, model: ModelRef, request: Request, dbs: seq<DbState>): (r: seq<Callback>)
    ensures |r| <= |dbs|
    ensures forall i :: 0 <= i < |r| ==> r[i] == Requery(engine, model, request, dbs[i])
    ensures forall i :: 0 <= i < |r| - 1 ==> r[i].Emit?
    ensures |r| < |dbs| ==> Failed(r)
  {
    if dbs == [] then []
    else
      var prior := Snapshots(engine, model, request, dbs[..|dbs| - 1]);
      if Failed(prior) then prior
      else prior + [Requery(engine, model, request, dbs[|dbs| - 1])]
  }

  /** Once a run has failed, later events change nothing. */
  lemma {:induction false} SnapshotsAfterFailure(engine: Engine, model: ModelRef, request: Request, dbs: seq<DbState>, k: nat)
    requires k <= |dbs|
    requires Failed(Snapshots(engine, model, request, dbs[..k]))
    ensures Snapshots(engine, model, request, dbs) == Snapshots(engine, model, request, dbs[..k])
    decreases |dbs| - k
  {
    if k < |dbs| {
      var pre := dbs[..|dbs| - 1];
      assert pre[..k] == dbs[..k];
      SnapshotsAfterFailure(engine, model, request, pre, k);
    } else {
      assert dbs[..k] == dbs;
    }
  }

  /** Events seen while the database does not change all yield the same
      snapshot: every event of the run is answered with the same data, or
      the first one fails and ends the run. */
  lemma SnapshotsOfOneState(engine: Engine, model: ModelRef, request: Request, dbs: seq<DbState>, db: DbState)
    requires forall i :: 0 <= i < |dbs| ==> dbs[i] == db
    ensures var r := Snapshots(engine, model, request, dbs);
      && (forall i :: 0 <= i < |r| ==> r[i] == Requery(engine, model, request, db))
      && (Requery(engine, model, request, db).Emit? ==> |r| == |dbs|)
      && (Requery(engine, model, request, db).Fail? && |dbs| > 0 ==> r == [Requery(engine, model, request, db)])
  {
  }

  /** The database state of each event of a run. */
  function States(events: seq<(Json, DbState)>): (dbs: seq<DbState>)
    ensures |dbs| == |events|
    ensures forall i :: 0 <= i < |events| ==> dbs[i] == events[i].1
  {
    seq(|events|, i requires 0 <= i < |events| => events[i].1)
  }

  /** `ChangeStreamToFindRecordsTransform`: turns every change event into a
      fresh snapshot of the stored query. */
  class ChangeStreamToFindRecordsTransform {
    const model: ModelRef
    const request: Request

    /** The callbacks made so far, in order. */
    var callbacks: seq<Callback>

    constructor(model: ModelRef, request: Request)
      ensures this.model == model && this.request == request
      ensures callbacks == []
    {
      this.model := model;
      this.request := request;
      callbacks := [];
    }

    /** `_transform`: the event is not read; the stored query is re-run and
      its outcome delivered through exactly one callback. */
    method Transform(chunk: Json, engine: Engine, db: DbState)
      modifies this
      ensures callbacks == old(callbacks) + [Requery(engine, model, request, db)]
    {
      var found := engine(FindDocuments, model, request, db);
      match found
      case Success(docs) =>
        callbacks := callbacks + [Emit(Data(docs))];
      case Failure(err) =>
        callbacks := callbacks + [Fail(err)];
    }

    /** The transform fed a run of change events through the pipeline, each
      paired with the database state its re-query sees; the first failed
      re-query ends the run. */
    method TransformAll(events: seq<(Json, DbState)>, engine: Engine)
      modifies this
      ensures callbacks == old(callbacks) + Snapshots(engine, model, request, States(events))
    {
      var k := 0;
      var failed := false;
      while k < |events| && !failed
        invariant 0 <= k <= |events|
        invariant callbacks == old(callbacks) + Snapshots(engine, model, request, States(events)[..k])
        invariant failed <==> Failed(Snapshots(engine, model, request, States(events)[..k]))
      {
        var chunk, db := events[k].0, events[k].1;
        assert States(events)[..k + 1][..k] == States(events)[..k];
        Transform(chunk, engine, db);
        failed := callbacks[|callbacks| - 1].Fail?;
        k := k + 1;
      }
      if failed {
        SnapshotsAfterFailure(engine, model, request, States(events), k);
      } else {
        assert States(events)[..k] == States(events);
      }
    }
  }
}
