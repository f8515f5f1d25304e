/**
 * The serverless result service (functions/backend/results_service.py):
 * finalize a visit into a parameter document and a mesh, read them back by id.
 * The camera, the SMPL environment and model run, and the clock are inputs.
 */
module ResultsService {
  import opened Wrappers
  import opened Schemas
  import opened Results
  import Pose
  import Camera
  import Smpl

  class ResultFiles {
    /** The results directory. */
    const resultsDir: string
    var docs: DocFiles
    var meshes: MeshFiles

    /** Opening the store keeps whatever documents and meshes earlier runs left in the directory. */
    constructor (resultsDir: string, existingDocs: DocFiles, existingMeshes: MeshFiles)
      ensures this.resultsDir == resultsDir && docs == existingDocs && meshes == existingMeshes
    {
      this.resultsDir := resultsDir;
      docs := existingDocs;
      meshes := existingMeshes;
    }

    /**
     * `finalize(visit_id, camera)`: analyse the latest frame, fit a mesh with a
     * freshly constructed fitter, and overwrite the visit's parameter document and mesh.
     */
    method Finalize(visitId: string, camera: Camera.CameraManager, inference: Camera.Inference,
                    num: Pose.Numerics, env: Smpl.FitterEnv, run: Smpl.ModelRun,
                    analysisTime: string, savedAt: string)
      returns (ok: bool, data: VisitRef)
      requires Pose.Sound(num)
      modifies this
      ensures ok && data == VisitRef(visitId)
      ensures var analysis := Camera.ExpectedAnalysis(camera.poseReady, camera.lastFrame, inference, num, analysisTime);
              docs == old(docs)[Paths(resultsDir, visitId).params :=
                                  FinalDoc(visitId, savedAt, Smpl.Available(env), Smpl.FallbackParams(), analysis)]
      ensures meshes == old(meshes)[Paths(resultsDir, visitId).mesh := Smpl.FitMesh(Smpl.Available(env), run)]
    {
      var analysis := camera.Analyze(inference, num, analysisTime);
      var fitter := new Smpl.SmplFitter(env);
      var params, mesh := fitter.Fit(analysis.keypoints, run);
      WriteResult(visitId, FinalDoc(visitId, savedAt, fitter.available, params, analysis), mesh);
      return true, VisitRef(visitId);
    }

    /** The two writes of `finalize`: the parameter document, then the mesh, each replacing any earlier file. */
    method WriteResult(visitId: string, doc: ResultDoc, mesh: Smpl.Mesh)
      modifies this
      ensures docs == old(docs)[Paths(resultsDir, visitId).params := doc]
      ensures meshes == old(meshes)[Paths(resultsDir, visitId).mesh := mesh]
    {
      var paths := Paths(resultsDir, visitId);
      docs := docs[paths.params := doc];
      meshes := meshes[paths.mesh := mesh];
    }

    /** `get_results(visit_id)`: the stored document; `None` stands for the empty dict returned when there is none. */
    function GetResults(visitId: string): (r: Option<ResultDoc>)
      reads this
      ensures r.None? <==> Paths(resultsDir, visitId).params !in docs
      ensures r.Some? ==> r.value == docs[Paths(resultsDir, visitId).params]
    {
      LookupResult(docs, resultsDir, visitId)
    }

    /** `mesh_path(visit_id)`: where the visit's mesh is stored, beside its parameter document. */
    function MeshPath(visitId: string): (path: string)
      ensures path == Base(resultsDir, visitId) + ".obj"
      ensures path != Paths(resultsDir, visitId).params
    {
      PathsNeverCollide(resultsDir, visitId, visitId);
      Paths(resultsDir, visitId).mesh
    }
  }
}
