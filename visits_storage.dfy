/**
 * The serverless visit store (functions/backend/visits_storage.py): one JSON
 * document per visit id, modelled as a map from id to record. The uuid and the
 * clock are inputs.
 */
module VisitsStorage {
  import opened Wrappers
  import opened Schemas
  import opened Visits

  class VisitFiles {
    /** The documents under the visits directory, by visit id. */
    var docs: Store

    /** Opening the store keeps whatever documents earlier runs left in the directory. */
    constructor (existing: Store)
      ensures docs == existing
    {
      docs := existing;
    }

    /** `create_visit(payload)`: write a new record under the freshly generated id, and return that id. */
    method CreateVisit(payload: Payload, newId: string, now: string) returns (id: string)
      modifies this
      ensures id == newId
      ensures docs == old(docs)[id := NewVisit(id, payload, now)]
    {
      id := newId;
      var data := NewVisit(id, payload, now);
      docs := docs[id := data];
    }

    /** `get_visit(visit_id)`: the stored record, or none. */
    function GetVisit(visitId: string): (r: Option<Visit>)
      reads this
      ensures r.None? <==> visitId !in docs
      ensures r.Some? ==> r.value == docs[visitId]
    {
      Lookup(docs, visitId)
    }

    /** `update_exercises(visit_id, exercises)`: read (or default), replace the exercise list, write back. */
    method UpdateExercises(visitId: string, exercises: seq<Json>, now: string) returns (ok: bool)
      modifies this
      ensures ok
      ensures docs == PutExercises(old(docs), visitId, exercises, now)
      ensures GetVisit(visitId).Some? && GetVisit(visitId).value.exercises == exercises
    {
      var data: Visit;
      if visitId in docs {
        data := docs[visitId];
      } else {
        data := DefaultVisit(visitId, now);
      }
      data := data.(exercises := exercises);
      docs := docs[visitId := data];
      ok := true;
    }
  }
}
