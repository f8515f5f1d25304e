/**
 * The server's result routes (app/routers/results.py): the same finalize rules
 * as the serverless service, answered in the `ApiResponse` envelope, plus the
 * mesh download.
 */
module ResultsRouter {
  import opened Wrappers
  import opened Schemas
  import opened Results
  import Pose
  import Camera
  import Smpl

  const NotFound: string := "Results not found"

  /** The mesh download: a 404 text answer, or the stored file served as plain text. */
  datatype MeshResponse =
    | PlainText(body: string, statusCode: nat)
    | FileBody(path: string, mediaType: string, mesh: Smpl.Mesh)

  class ResultFiles {
    /** The results directory. */
    const resultsDir: string
    var docs: DocFiles
    var meshes: MeshFiles

    /** Opening the store keeps whatever documents and meshes earlier runs left in the directory. */
    constructor (resultsDir: string, existingDocs: DocFiles, existingMeshes: MeshFiles)
      ensures this.resultsDir == resultsDir && docs == existingDocs && meshes == existingMeshes
    {
      this.resultsDir := resultsDir;
      docs := existingDocs;
      meshes := existingMeshes;
    }

    /** `POST /api/visits/{id}/finalize`: overwrite the visit's parameter document and mesh. */
    method FinalizeVisit(visitId: string, camera: Camera.CameraManager, inference: Camera.Inference,
                         num: Pose.Numerics, env: Smpl.FitterEnv, run: Smpl.ModelRun,
                         analysisTime: string, savedAt: string)
      returns (response: ApiResponse<VisitRef>)
      requires Pose.Sound(num)
      modifies this
      ensures response == ApiResponse(true, Some(VisitRef(visitId)), None)
      ensures var analysis := Camera.ExpectedAnalysis(camera.poseReady, camera.lastFrame, inference, num, analysisTime);
              docs == old(docs)[Paths(resultsDir, visitId).params :=
                                  FinalDoc(visitId, savedAt, Smpl.Available(env), Smpl.FallbackParams(), analysis)]
      ensures meshes == old(meshes)[Paths(resultsDir, visitId).mesh := Smpl.FitMesh(Smpl.Available(env), run)]
    {
      var analysis := camera.Analyze(inference, num, analysisTime);
      var fitter := new Smpl.SmplFitter(env);
      var params, mesh := fitter.Fit(analysis.keypoints, run);
      WriteResult(visitId, FinalDoc(visitId, savedAt, fitter.available, params, analysis), mesh);
      response := ApiResponse(true, Some(VisitRef(visitId)), None);
    }

    /** The two writes of the finalize route: the parameter document, then the mesh, each replacing any earlier file. */
    method WriteResult(visitId: string, doc: ResultDoc, mesh: Smpl.Mesh)
      modifies this
      ensures docs == old(docs)[Paths(resultsDir, visitId).params := doc]
      ensures meshes == old(meshes)[Paths(resultsDir, visitId).mesh := mesh]
    {
      var paths := Paths(resultsDir, visitId);
      docs := docs[paths.params := doc];
      meshes := meshes[paths.mesh := mesh];
    }

    /** `GET /api/results/{id}`: the stored document, or a failure saying the results were not found. */
    function GetResults(visitId: string): (response: ApiResponse<ResultDoc>)
      reads this
      ensures response.success <==> Paths(resultsDir, visitId).params in docs
      ensures response.success ==>
                response.data == Some(docs[Paths(resultsDir, visitId).params]) && response.message.None?
      ensures !response.success ==> response.data.None? && response.message == Some(NotFound)
    {
      match LookupResult(docs, resultsDir, visitId)
      case Some(doc) => ApiResponse(true, Some(doc), None)
      case None => ApiResponse(false, None, Some(NotFound))
    }

    /** `GET /api/results/{id}/mesh.obj`: 404 "mesh not found" without a stored mesh, else the file. */
    function GetMeshObj(visitId: string): (response: MeshResponse)
      reads this
      ensures response.PlainText? <==> Paths(resultsDir, visitId).mesh !in meshes
      ensures response.PlainText? ==> response == PlainText("mesh not found", 404)
      ensures response.FileBody? ==>
                response.path == Paths(resultsDir, visitId).mesh &&
                response.mediaType == "text/plain" &&
                response.mesh == meshes[response.path]
    {
      var path := Paths(resultsDir, visitId).mesh;
      if path !in meshes then PlainText("mesh not found", 404)
      else FileBody(path, "text/plain", meshes[path])
    }
  }

  /** Finalizing the same visit twice leaves the second result and mesh behind. */
  method FinalizeTwice(visitId: string, camera: Camera.CameraManager, inference: Camera.Inference,
                       num: Pose.Numerics, env1: Smpl.FitterEnv, run1: Smpl.ModelRun,
                       env2: Smpl.FitterEnv, run2: Smpl.ModelRun, t1: string, t2: string,
                       existingDocs: DocFiles, existingMeshes: MeshFiles)
    returns (results: ApiResponse<ResultDoc>, mesh: MeshResponse)
    requires Pose.Sound(num)
    ensures results.success && results.data.Some?
    ensures results.data.value.timestamp == t2 && results.data.value.smplAvailable == Smpl.Available(env2)
    ensures mesh.FileBody? && mesh.mesh == Smpl.FitMesh(Smpl.Available(env2), run2)
  {
    var files := new ResultFiles("results", existingDocs, existingMeshes);
    var r1 := files.FinalizeVisit(visitId, camera, inference, num, env1, run1, t1, t1);
    var r2 := files.FinalizeVisit(visitId, camera, inference, num, env2, run2, t2, t2);
    results := files.GetResults(visitId);
    mesh := files.GetMeshObj(visitId);
  }

  /**
   * With no change to the camera between a streamed analysis and a finalize,
   * and the estimator reporting the same detection both times, the stored
   * metrics are the streamed analysis's angles and symmetry.
   */
  method FinalizeMatchesStream(visitId: string, camera: Camera.CameraManager,
                               streamedInference: Camera.Inference, finalizedInference: Camera.Inference,
                               num: Pose.Numerics, env: Smpl.FitterEnv, run: Smpl.ModelRun,
                               streamTime: string, finalizeTime: string,
                               existingDocs: DocFiles, existingMeshes: MeshFiles)
    returns (streamed: Analysis, results: ApiResponse<ResultDoc>)
    requires Pose.Sound(num)
    requires streamedInference == finalizedInference
    ensures results.success && results.data.Some?
    ensures results.data.value.metrics == Metrics(streamed.angles, streamed.symmetry)
    ensures results.data.value.visitId == visitId && results.data.value.meshUrl == MeshUrl(visitId)
  {
    streamed := camera.Analyze(streamedInference, num, streamTime);
    var files := new ResultFiles("results", existingDocs, existingMeshes);
    var r := files.FinalizeVisit(visitId, camera, finalizedInference, num, env, run, finalizeTime, finalizeTime);
    Camera.AnalysisIgnoresClock(camera.poseReady, camera.lastFrame, finalizedInference, num, streamTime, finalizeTime);
    results := files.GetResults(visitId);
  }
}
