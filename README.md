# PhysioPlus backend core in Dafny

This project models the core of the PhysioPlus posture-analysis backend and proves properties of that model:

- **The camera manager.** It has a start/stop state machine over a streaming flag, a device handle and a background acquisition loop. It reports the configured status, runs one iteration of each acquisition loop (device capture or stub frames), and analyses the posture of the latest frame with a synthetic fallback.
- **The posture derivations of the pose estimator.** These name the MediaPipe landmarks, compute frame quality as the mean visibility, compute the four limb angles, and compute shoulder symmetry.
- **The SMPL body-mesh fitter.** This covers the availability rule, the neutral parameters, the Wavefront OBJ serialiser with its 0-based to 1-based face indices, and the fallback cube.
- **The visit store and the result store.** Each exists in both deployments: the serverless functions (`functions/backend`) and the server routes (`app/routers`). A visit is created, read and has its exercise list updated. A finalize writes a parameter document and a mesh per visit. Both can be read back, and the mesh can be downloaded.

Modules:

| file | module | models |
|---|---|---|
| `wrappers.dfy` | `Wrappers` | `Option` |
| `schemas.dfy` | `Schemas` | the response envelope (`ApiResponse`), keypoints, analyses, visits, JSON values |
| `pose.dfy` | `Pose` | `app/services/pose.py` |
| `camera.dfy` | `Camera` | `app/services/camera.py` |
| `smpl.dfy` | `Smpl` | `functions/backend/smpl_fitter.py` |
| `visits.dfy` | `Visits` | the visit-record rules both visit stores share |
| `visits_storage.dfy` | `VisitsStorage` | `functions/backend/visits_storage.py` |
| `visits_router.dfy` | `VisitsRouter` | `app/routers/visits.py` |
| `results.dfy` | `Results` | the result-file rules both result stores share |
| `results_service.dfy` | `ResultsService` | `functions/backend/results_service.py` |
| `results_router.dfy` | `ResultsRouter` | `app/routers/results.py` |

State the source changes in place is modelled as a class:

- `CameraManager`, whose methods `modify` its fields.
- `SmplFitter`.
- The visit and result directories, modelled as maps from id (or from file path) to document that the store methods reassign.

The background thread of the camera is represented by ghost fields:

- `loop`: which acquisition loop is running.
- `spawned`: how many threads `start` has launched.
- `steps`: how many loop iterations have stored a frame.

One iteration of each `while self._streaming` loop is a step method.

Everything outside the program's own logic is an input:

- whether OpenCV imports;
- whether the device opens;
- what a device read returns;
- what MediaPipe infers;
- what the SMPL model run produces;
- the model-directory environment;
- the square root and `degrees(arccos(.))` of the numeric library, given only the ranges that library guarantees (`Pose.Sound`);
- the uuid;
- the clock.

Code behaviours worth knowing when reading the model:

- **Status backend label.** `status()` reports `"opencv"` or `"stub"`, chosen by whether OpenCV imports. It does not say whether a device is actually open, and there is no `"device"` label. `Camera.CameraManager.Start` proves that after a fallback to stub mode because no device opened, the status still says `"opencv"`.
- **Frame quality.** The quality is the mean visibility of the landmarks that are *named*. Only the first 33 are named, not every landmark that was detected.
- **Estimator without MediaPipe.** Here the model does not follow the code as written. The estimator is meant to be treated as absent when MediaPipe is missing, but as written the manager cannot be constructed at all in that case (see Findings). The model's constructor follows the intended, corrected rule, and `Camera.PoseInitAsWritten` records the code as written.

## Model

| member | source | states |
|---|---|---|
| Pose.LandmarkNamesDistinct | app/services/pose.py:13-22 | the landmark table has exactly 33 names and no name occurs twice, so naming never overwrites an earlier keypoint |
| Pose.NamedCount | app/services/pose.py:39 | the number of named landmarks is at most the number detected and at most 33, and equals one of the two |
| Pose.NamedKeypoints | app/services/pose.py:40-48 | after naming the first n landmarks with distinct names, the keys are exactly those n names and each name maps to its own landmark's x, y, z and visibility |
| Pose.KeypointsOf | app/services/pose.py:35-48 | no detection gives no keypoints; a detection gives exactly the first `min(len, 33)` table names, each carrying the landmark at the same index |
| Pose.NameLandmarks | app/services/pose.py:40-48 | the naming loop builds the named keypoint set and the running sum of visibilities of the named landmarks |
| Pose.Process | app/services/pose.py:31-51 | `process` returns exactly the named keypoint set and the mean visibility over the named landmarks, 0 when there are none |
| Pose.VisibilitySumBounds | app/services/pose.py:48 | a sum of k visibilities in [0,1] lies in [0,k] |
| Pose.QualityInUnitRange | app/services/pose.py:36-50 | with visibilities in [0,1] the frame quality is in [0,1], and it is exactly 0 when nothing is detected or the landmark list is empty |
| Pose.Clip | app/services/pose.py:64 | `np.clip` stays within the bounds and is the identity inside them, the lower bound below, the upper bound above |
| Pose.ClippedCosine | app/services/pose.py:57-64 | the cosine passed to arccos lies in [-1,1] whatever the landmark positions, because the norms are non-negative and the denominator is guarded by 1e-6 |
| Pose.Angle | app/services/pose.py:54-66 | a joint angle is exactly 0.0 when any of its three landmarks is missing, and otherwise is `degrees(arccos(.))` of the clipped cosine at the middle landmark; it is always in [0,180] degrees |
| Pose.AngleSymmetric | app/services/pose.py:54-66 | the angle at the middle landmark is the same whichever outer landmark is named first |
| Pose.DeriveAngles | app/services/pose.py:53-72 | the result has exactly the keys left/right elbow and left/right knee; each joint is the angle of its own triple (shoulder-elbow-wrist, hip-knee-ankle on the same side), so every value is in [0,180] and is 0.0 when one of its three landmarks is missing |
| Pose.DeriveSymmetry | app/services/pose.py:74-78 | the result has the single key "shoulders" with a score in [0,1], equal to 0 when a shoulder is missing and to 1 minus the vertical shoulder offset (floored at 0) otherwise |
| Camera.PoseInitAsWritten | app/services/camera.py:13-29 | as written, creating the manager raises exactly when the estimator module imports but MediaPipe is missing; the estimator is ready exactly when both load |
| Camera.AsWrittenNoFallbackWithoutMediapipe | app/services/pose.py:26-28 | without MediaPipe the estimator constructor raises, so as written the manager cannot be created and no fallback is reached |
| Camera.PoseInitGuarded | app/services/camera.py:29 | the corrected rule never raises, is ready exactly when both modules load, and agrees with the as-written rule wherever that one does not raise |
| Camera.FallbackAnalysis | app/services/camera.py:117-130 | the fallback is exactly the nose (0.5, 0.2, 0), left shoulder (0.4, 0.35, 0) and right shoulder (0.6, 0.35, 0) keypoints, each with visibility 0.9; the angles are `{"shoulder_tilt": 0.0}`, which is 10 times the shoulder offset; the symmetry is `{"shoulders": 1.0}`, which agrees with the symmetry rule for those keypoints; the quality is 0.95 and the timestamp is the given one |
| Camera.AnalysisIgnoresClock | app/services/camera.py:100-130 | two analyses of the same camera state agree on keypoints, angles, symmetry and quality; only the timestamp differs |
| Camera.DetectedWellFormed | app/services/camera.py:102-114 | an estimator analysis of a detection with valid visibilities has only table names as keypoints, visibilities in [0,1], angles in [0,180], one shoulder score in [0,1] and quality in [0,1] |
| Camera.FallbackWellFormed | app/services/camera.py:117-130 | the fallback analysis is well formed in the same sense |
| Camera.AnalysisWellFormed | app/services/camera.py:100-130 | whichever path `analyze` takes, the caller receives a well-formed analysis |
| Camera.CameraManager.constructor | app/services/camera.py:20-29 | a new manager is not streaming, holds no device, has no frame and no loop, records whether OpenCV imports, and has a ready estimator exactly by the guarded rule |
| Camera.CameraManager.Start | app/services/camera.py:31-56 | always succeeds and streams; when already streaming it changes nothing; without OpenCV, or when the device does not open, it starts one stub loop with the matching message; otherwise it opens device 0 at 640x480, 10 fps, and starts one capture loop; the frame is untouched |
| Camera.CameraManager.Stop | app/services/camera.py:58-69 | always succeeds; when not streaming it changes nothing; otherwise it clears the flag, ends the loop and releases the device |
| Camera.CameraManager.Status | app/services/camera.py:71-78 | reports the streaming flag, 640x480 at 10 fps, and "opencv" exactly when OpenCV imports, else "stub" |
| Camera.CameraManager.GetFrame | app/services/camera.py:80-81 | there is a frame exactly when some loop iteration has stored one |
| Camera.CameraManager.SolidFrame | app/services/camera.py:162-163 | a 480x640x3 frame filled with the given colour |
| Camera.CameraManager.CaptureStep | app/services/camera.py:133-143 | while streaming, stores the frame the device read, or a solid white frame when the read fails; once stopped it stores nothing and the loop ends |
| Camera.CameraManager.StubStep | app/services/camera.py:145-160 | while streaming, stores a dark grey 480x640 frame, with the "STUB STREAM" text when OpenCV is present; once stopped it stores nothing and the loop ends |
| Camera.CameraManager.Analyze | app/services/camera.py:100-130 | the analysis is the estimator's result on the latest frame when an estimator and a frame exist and inference succeeds, and the fallback analysis in every other case |
| Camera.StartTwice | app/services/camera.py:31-40 | a second start reports "Camera already running", the camera streams, and only one acquisition loop was ever launched |
| Camera.StartThenStop | app/services/camera.py:31-69 | after start then stop the message is "Camera stopped" and the status is not streaming |
| Smpl.ModelDir | functions/backend/smpl_fitter.py:20 | the model directory is `SMPL_MODEL_DIR` when set and non-empty, else the local "models" path |
| Smpl.Available | functions/backend/smpl_fitter.py:13-24 | the fitter is available exactly when both libraries import and the model directory is a directory |
| Smpl.FallbackParams | functions/backend/smpl_fitter.py:67-72 | 10 shape, 72 pose and 3 translation values, all zero |
| Smpl.FittedParams | functions/backend/smpl_fitter.py:41-60 | the fitted pose is the 3 global-orientation values and then the 69 body-pose values; all are zero, so the fitted parameters equal the fallback ones |
| Smpl.OneBased | functions/backend/smpl_fitter.py:80-82 | a face's three indices each shifted up by one |
| Smpl.ObjDoc | functions/backend/smpl_fitter.py:76-83 | the OBJ document has 2 + vertices + faces lines and starts with the "SMPL mesh" comment and the "SMPL" object name |
| Smpl.ObjDocLayout | functions/backend/smpl_fitter.py:76-83 | line 2+i is vertex i, and the line after the vertex lines plus i is face i with 1-based indices |
| Smpl.ToObj | functions/backend/smpl_fitter.py:76-83 | the two serialising loops produce exactly the OBJ document |
| Smpl.ObjRoundTrip | functions/backend/smpl_fitter.py:76-83 | reading the OBJ document back gives the vertices in order and one face per triangle; undoing the shift by one recovers each triangle's 0-based indices |
| Smpl.ObjDocWellFormed | functions/backend/smpl_fitter.py:76-83 | when the triangles index the vertex list, every face of the serialised mesh refers to a declared vertex (1..n) |
| Smpl.CubeObj | functions/backend/smpl_fitter.py:85-105 | the cube is 16 lines with its own header, declares exactly the 8 corner vertices and the 6 quadrilateral faces, and is a well-formed OBJ document |
| Smpl.SmplFitter.constructor | functions/backend/smpl_fitter.py:8-24 | availability is probed once: available exactly by the availability rule, with a model directory only when the libraries load |
| Smpl.SmplFitter.Fit | functions/backend/smpl_fitter.py:26-74 | the parameters are always the neutral ones; the mesh is the serialised model output when available and the run succeeds, and the cube when unavailable or when the run raises |
| Visits.Field | functions/backend/visits_storage.py:21 | a payload field is its value when present and the default otherwise |
| Visits.NewVisit | functions/backend/visits_storage.py:16-31 | a new visit has the given id, status "in_progress", no exercises and the creation time; each payload field is copied when present and defaulted otherwise ("" and "completa" for the analysis type) |
| Visits.DefaultVisit | functions/backend/visits_storage.py:47-57 | the record written for an unknown id is the one a create with an empty payload would write |
| Visits.Lookup | functions/backend/visits_storage.py:34-39 | reading gives the stored record exactly when the id is stored, else nothing |
| Visits.PutExercises | functions/backend/visits_storage.py:42-61 | the update adds the id to the store, sets its exercise list, keeps every other field of an existing record, creates the default record for a new id, and leaves every other id untouched (for ids that are plain file names; see Left out) |
| Visits.UpdateThenGet | functions/backend/visits_storage.py:42-61 | after an update, reading the visit gives the new exercise list with every other field as before, or a default in-progress record for a new id; other visits read as before (for ids that are plain file names; see Left out) |
| Visits.UpdateIdempotent | functions/backend/visits_storage.py:42-61 | repeating the same update changes nothing, whatever the clock says the second time |
| Visits.CreateThenGet | functions/backend/visits_storage.py:16-39 | a created visit reads back as the new record, and no other visit changes (for ids that are plain file names; see Left out) |
| VisitsStorage.VisitFiles.constructor | functions/backend/visits_storage.py:8-9 | opening the store keeps every document already in the visits directory |
| VisitsStorage.VisitFiles.CreateVisit | functions/backend/visits_storage.py:16-31 | returns the generated id and stores the new record under it, leaving every other file as it was |
| VisitsStorage.VisitFiles.GetVisit | functions/backend/visits_storage.py:34-39 | the stored record exactly when the file exists, else none |
| VisitsStorage.VisitFiles.UpdateExercises | functions/backend/visits_storage.py:42-61 | always answers true; the store becomes the read-modify-write update, and the visit then reads back with the new exercise list |
| VisitsRouter.VisitFiles.constructor | app/routers/visits.py:12-13 | opening the store keeps every document already in the visits directory |
| VisitsRouter.VisitFiles.CreateVisit | app/routers/visits.py:23-39 | answers success with the new visit id and stores the new in-progress record under it |
| VisitsRouter.VisitFiles.GetVisit | app/routers/visits.py:42-49 | success with the stored record exactly when it exists, otherwise a failure with "Visit not found" and no data |
| VisitsRouter.VisitFiles.UpdateExercises | app/routers/visits.py:52-73 | answers a bare success; the store becomes the read-modify-write update, and the visit then reads back with the new exercise list |
| Results.Paths | functions/backend/results_service.py:14-16 | a visit's parameter document and mesh share one base in the results directory, with ".json" and ".obj" appended (the server route's `_result_paths` is the same rule) |
| Results.PathsNeverCollide | functions/backend/results_service.py:14-16 | a parameter path is never a mesh path, and distinct visit ids never share a path of either kind (for ids that are plain file names; see Left out) |
| Results.FinalDoc | functions/backend/results_service.py:25-38 | the stored document carries the visit id, the timestamp, the fitter's availability, the fitted parameters, the analysis's angles and symmetry, and the mesh URL of that visit |
| Results.LookupResult | functions/backend/results_service.py:46-51 | the stored document exactly when the parameter file exists, else none |
| Results.LookupMesh | app/routers/results.py:69-74 | the stored mesh exactly when the mesh file exists, else none |
| Results.FinalizeWritesOnlyItsOwnFiles | functions/backend/results_service.py:19-43 | a finalize makes its own document and mesh readable and leaves every other visit's result and mesh as they were (for ids that are plain file names; see Left out) |
| Results.LastWriteWins | functions/backend/results_service.py:24-42 | after two finalizes of one visit only the second document and mesh are visible |
| ResultsService.ResultFiles.constructor | functions/backend/results_service.py:10-11 | opening the store records the results directory and keeps every parameter document and mesh already in it |
| ResultsService.ResultFiles.Finalize | functions/backend/results_service.py:19-43 | answers true with the visit id; the visit's document becomes the one built from the camera's analysis, the probed availability and the neutral parameters, and its mesh becomes the fitter's mesh; nothing else changes |
| ResultsService.ResultFiles.WriteResult | functions/backend/results_service.py:24-42 | the two writes replace exactly the visit's parameter file and mesh file |
| ResultsService.ResultFiles.GetResults | functions/backend/results_service.py:46-51 | the stored document exactly when the parameter file exists; none stands for the empty dictionary |
| ResultsService.ResultFiles.MeshPath | functions/backend/results_service.py:54-55 | the mesh path is the visit's base with ".obj" and is never the parameter path |
| ResultsRouter.ResultFiles.constructor | app/routers/results.py:14-15 | opening the store records the results directory and keeps every parameter document and mesh already in it |
| ResultsRouter.ResultFiles.FinalizeVisit | app/routers/results.py:28-56 | answers success with the visit id; the document and mesh are overwritten exactly as in the serverless finalize |
| ResultsRouter.ResultFiles.WriteResult | app/routers/results.py:34-54 | the two writes replace exactly the visit's parameter file and mesh file |
| ResultsRouter.ResultFiles.GetResults | app/routers/results.py:59-66 | success with the stored document exactly when it exists, otherwise a failure with "Results not found" and no data |
| ResultsRouter.ResultFiles.GetMeshObj | app/routers/results.py:69-74 | a plain-text 404 "mesh not found" exactly when no mesh is stored, otherwise the stored mesh file as text/plain |
| ResultsRouter.FinalizeTwice | app/routers/results.py:28-74 | from any existing results directory, finalizing a visit twice leaves the second timestamp, availability and mesh visible |
| ResultsRouter.FinalizeMatchesStream | app/routers/results.py:28-66 | from any existing results directory, with no camera change between a streamed analysis and a finalize and the estimator reporting the same detection both times, the stored metrics are that analysis's angles and symmetry, under the visit's id and mesh URL |

## Left out

- Threads and locking: `start`/`stop` hold a lock, and the acquisition loops run on a thread and sleep with `cv2.waitKey`. Neither the lock nor the sleep is modelled. A loop is one step method at a time, and the steps and the start/stop calls are sequential.
- The start/stop/start race: the model cannot show the case where a stopped loop has not yet seen the cleared flag when a new loop starts. The ghost `loop` records only the latest loop.
- The capture loop's precondition: `_loop_capture` asserts that OpenCV and a device exist. In the model this is the precondition that the capture step runs only while the capture loop is the one running.
- `frame_to_base64` and all JPEG/PNG encoding: this is image-library I/O.
- The BGR to RGB conversion and MediaPipe inference: the detection is an input.
- Floating point: numbers are reals. The numeric library's square root and arccos are oracles constrained only by their ranges. An angle is stated as the oracle applied to the clipped cosine, so its numeric value is only as determined as the oracle is.
- OBJ text formatting: the `:.6f` formatting of vertex coordinates and the newline join are not modelled. A mesh is its sequence of lines.
- The uuid and the clock: both are parameters.
- Path normalisation: `os.path.abspath` normalisation and `os.path.join` with an absolute id are not modelled. Paths are `dir + "/" + id` plus the extension, and visits are keyed by id.
- Results.PathsNeverCollide: "distinct ids never share a path" holds in the source only for ids that are plain file names, with no `/` and not `.` or `..`. The ids arrive unchecked from the request. After `abspath`, `./x` and `x` name the same file, and a finalize of `../visits/<vid>` writes over visit `<vid>`'s record. The model does not normalise paths, so it treats such ids as distinct and cannot show these collisions.
- Results.FinalizeWritesOnlyItsOwnFiles: "other visits are untouched" holds in the source only for plain file-name ids, for the reason given for Results.PathsNeverCollide.
- Visits.PutExercises: "every other id is untouched" holds in the source only for plain file-name ids (`./x` and `x` are one file after joining under the visits directory).
- Visits.UpdateThenGet: "other visits read as before" holds in the source only for plain file-name ids, as for Visits.PutExercises.
- Visits.CreateThenGet: "no other visit changes" holds in the source only for plain file-name ids, as for Visits.PutExercises.
- ResultsRouter.FinalizeMatchesStream: the agreement is proved only when the estimator reports the same detection for the streamed analysis and for the finalize. The estimator runs MediaPipe in video mode (`static_image_mode=False`), which tracks between calls, so two calls on one unchanged frame are not guaranteed to return the same landmarks.
- JSON: serialisation and parsing are not modelled. A stored document reads back as written.
- Visit payloads: only string values are modelled. Values of other JSON types are not.
- Key order: the order of the keypoint and result dictionaries is not modelled, because maps are unordered.
- The keypoint schema's visibility bounds: validation is not modelled. The well-formedness lemmas instead assume visibilities in [0,1].
- Camera.CameraManager.Analyze: only an inference failure triggers the fallback. Every other step of the estimator path is total in the model, because missing landmarks are handled.
- Other modules: app/services/smpl.py and functions/backend/camera_service.py are not part of this model. Both result stores are modelled against `Smpl.SmplFitter` and `Camera.CameraManager`.
- The remaining routes and entry points: the camera, status and WebSocket routes (app/routers/camera.py, status.py, ws.py), app/main.py and functions/main.py are request wiring around the modelled operations. They are not modelled.

## Findings

| source | as written | input that shows it | evidently intended | confidence | as-written member | corrected member |
|---|---|---|---|---|---|---|
| app/services/camera.py:13-29 | The manager constructs `PoseEstimator()` whenever the import of that class succeeded. pose.py swallows the MediaPipe import error, so the import succeeds even without MediaPipe, and the estimator constructor then raises `RuntimeError`. Nothing catches it. | an environment where the estimator module loads but MediaPipe is missing (`PoseInitAsWritten(true, false) == InitRaises`) | an unavailable estimator is treated as absent, the manager is created, and `analyze` returns the fallback | not executed; high, follows from the two files | Camera.AsWrittenNoFallbackWithoutMediapipe | Camera.PoseInitGuarded |
