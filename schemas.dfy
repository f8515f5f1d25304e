/**
 * Record shapes shared by the services and the routers (app/schemas.py):
 * JSON blobs, the API envelope, keypoints, posture analyses and visits.
 */
module Schemas {
  import opened Wrappers

  /** An arbitrary JSON value, for the opaque exercise records a client stores. */
  datatype Json =
    | JNull
    | JBool(b: bool)
    | JNumber(n: real)
    | JString(s: string)
    | JArray(items: seq<Json>)
    | JObject(fields: map<string, Json>)

  /** The `{success, data?, message?}` envelope every app route returns. */
  datatype ApiResponse<+T> = ApiResponse(success: bool, data: Option<T>, message: Option<string>)

  /** The `{"visit_id": ...}` payload of create and finalize responses. */
  datatype VisitRef = VisitRef(visitId: string)

  /** One named body landmark: normalised position and visibility confidence. */
  datatype Keypoint = Keypoint(x: real, y: real, z: real, visibility: real)

  /** Landmark name to keypoint; a Python dict keyed by name. */
  type KeypointSet = map<string, Keypoint>

  /** The posture analysis returned by the camera manager on every request. */
  datatype Analysis = Analysis(
    keypoints: KeypointSet,
    angles: map<string, real>,
    symmetry: map<string, real>,
    timestamp: string,
    frameQuality: real)

  /** A visit document, one per id. `note` is a string in both stores. */
  datatype Visit = Visit(
    id: string,
    patientId: string,
    operatorId: string,
    tipoAnalisi: string,
    status: string,
    note: string,
    createdAt: string,
    exercises: seq<Json>)
}
