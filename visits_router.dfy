/**
 * The server's visit routes (app/routers/visits.py): the same per-id document
 * rules as the serverless store, answered in the `ApiResponse` envelope.
 */
module VisitsRouter {
  import opened Wrappers
  import opened Schemas
  import opened Visits

  const NotFound: string := "Visit not found"

  class VisitFiles {
    /** The documents under the visits directory, by visit id. */
    var docs: Store

    /** Opening the store keeps whatever documents earlier runs left in the directory. */
    constructor (existing: Store)
      ensures docs == existing
    {
      docs := existing;
    }

    /** `POST /visits`: store a new in-progress record and answer with its id. */
    method CreateVisit(payload: Payload, newId: string, now: string) returns (response: ApiResponse<VisitRef>)
      modifies this
      ensures response == ApiResponse(true, Some(VisitRef(newId)), None)
      ensures docs == old(docs)[newId := NewVisit(newId, payload, now)]
    {
      var visit := NewVisit(newId, payload, now);
      docs := docs[newId := visit];
      response := ApiResponse(true, Some(VisitRef(newId)), None);
    }

    /** `GET /visits/{id}`: the stored record, or a failure saying the visit was not found. */
    function GetVisit(visitId: string): (response: ApiResponse<Visit>)
      reads this
      ensures response.success <==> visitId in docs
      ensures response.success ==> response.data == Some(docs[visitId]) && response.message.None?
      ensures !response.success ==> response.data.None? && response.message == Some(NotFound)
    {
      if visitId in docs then ApiResponse(true, Some(docs[visitId]), None)
      else ApiResponse(false, None, Some(NotFound))
    }

    /** `PUT /visits/{id}/exercises`: replace the exercise list, creating a default record if needed. */
    method UpdateExercises(visitId: string, exercises: seq<Json>, now: string) returns (response: ApiResponse<VisitRef>)
      modifies this
      ensures response == ApiResponse(true, None, None)
      ensures docs == PutExercises(old(docs), visitId, exercises, now)
      ensures GetVisit(visitId).success && GetVisit(visitId).data.value.exercises == exercises
    {
      var data: Visit;
      if visitId in docs {
        data := docs[visitId];
      } else {
        data := DefaultVisit(visitId, now);
      }
      data := data.(exercises := exercises);
      docs := docs[visitId := data];
      response := ApiResponse(true, None, None);
    }
  }
}
