/**
 * The visit-document rules shared by both deployments
 * (functions/backend/visits_storage.py and app/routers/visits.py):
 * the record `create` writes, the default record `update_exercises` writes for an
 * unknown id, and the read-modify-write of the exercise list over the per-id store.
 */
module Visits {
  import opened Wrappers
  import opened Schemas

  /** The request body of a create: string fields by name. */
  type Payload = map<string, string>

  /** The store: one document per visit id. */
  type Store = map<string, Visit>

  const InProgress: string := "in_progress"
  const DefaultAnalysis: string := "completa"

  /** `payload.get(key, default)`. */
  function Field(payload: Payload, key: string, default: string): (v: string)
    ensures key in payload ==> v == payload[key]
    ensures key !in payload ==> v == default
  {
    if key in payload then payload[key] else default
  }

  /** The record `create_visit` stores under `id`, created at `now`. */
  function NewVisit(id: string, payload: Payload, now: string): (v: Visit)
    ensures v.id == id && v.status == InProgress && v.exercises == [] && v.createdAt == now
    ensures "patient_id" !in payload ==> v.patientId == ""
    ensures "operator_id" !in payload ==> v.operatorId == ""
    ensures "tipo_analisi" !in payload ==> v.tipoAnalisi == DefaultAnalysis
    ensures "note" !in payload ==> v.note == ""
    ensures "patient_id" in payload ==> v.patientId == payload["patient_id"]
    ensures "operator_id" in payload ==> v.operatorId == payload["operator_id"]
    ensures "tipo_analisi" in payload ==> v.tipoAnalisi == payload["tipo_analisi"]
    ensures "note" in payload ==> v.note == payload["note"]
  {
    Visit(
      id,
      Field(payload, "patient_id", ""),
      Field(payload, "operator_id", ""),
      Field(payload, "tipo_analisi", DefaultAnalysis),
      InProgress,
      Field(payload, "note", ""),
      now,
      [])
  }

  /** The record `update_exercises` starts from when no document exists for `id`. */
  function DefaultVisit(id: string, now: string): (v: Visit)
    ensures v == NewVisit(id, map[], now)
  {
    Visit(id, "", "", DefaultAnalysis, InProgress, "", now, [])
  }

  /** `get_visit`: the stored document, or none. */
  function Lookup(store: Store, id: string): (r: Option<Visit>)
    ensures r.None? <==> id !in store
    ensures r.Some? ==> r.value == store[id]
  {
    if id in store then Some(store[id]) else None
  }

  /** The store after `update_exercises(id, exercises)` at time `now`. */
  function PutExercises(store: Store, id: string, exercises: seq<Json>, now: string): (s: Store)
    ensures s.Keys == store.Keys + {id}
    ensures s[id].exercises == exercises
    ensures id in store ==> s[id] == store[id].(exercises := exercises)
    ensures id !in store ==> s[id] == NewVisit(id, map[], now).(exercises := exercises)
    ensures forall other :: other in store && other != id ==> s[other] == store[other]
  {
    var data := if id in store then store[id] else DefaultVisit(id, now);
    store[id := data.(exercises := exercises)]
  }

  /** After an update, reading the visit gives the new exercise list; every other field is as before. */
  lemma UpdateThenGet(store: Store, id: string, exercises: seq<Json>, now: string)
    ensures Lookup(PutExercises(store, id, exercises, now), id).Some?
    ensures Lookup(PutExercises(store, id, exercises, now), id).value.exercises == exercises
    ensures id in store ==>
              var before, after := store[id], Lookup(PutExercises(store, id, exercises, now), id).value;
              after.id == before.id && after.patientId == before.patientId &&
              after.operatorId == before.operatorId && after.tipoAnalisi == before.tipoAnalisi &&
              after.status == before.status && after.note == before.note && after.createdAt == before.createdAt
    ensures id !in store ==>
              var after := Lookup(PutExercises(store, id, exercises, now), id).value;
              after.id == id && after.status == InProgress && after.tipoAnalisi == DefaultAnalysis
    ensures forall other :: other != id ==>
              Lookup(PutExercises(store, id, exercises, now), other) == Lookup(store, other)
  {
  }

  /** Repeating the same update changes nothing, whatever the clock says the second time. */
  lemma UpdateIdempotent(store: Store, id: string, exercises: seq<Json>, now: string, later: string)
    ensures PutExercises(PutExercises(store, id, exercises, now), id, exercises, later)
            == PutExercises(store, id, exercises, now)
  {
    var once := PutExercises(store, id, exercises, now);
    assert once[id].(exercises := exercises) == once[id];
  }

  /** Creating a visit then reading it back gives the new record; other ids are untouched. */
  lemma CreateThenGet(store: Store, id: string, payload: Payload, now: string)
    ensures Lookup(store[id := NewVisit(id, payload, now)], id) == Some(NewVisit(id, payload, now))
    ensures forall other :: other != id ==>
              Lookup(store[id := NewVisit(id, payload, now)], other) == Lookup(store, other)
  {
  }
}
