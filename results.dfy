/**
 * The finalized-result rules shared by both deployments
 * (functions/backend/results_service.py and app/routers/results.py): where a
 * visit's parameter document and mesh are stored, and what the document holds.
 *
 * Stored files are modelled as two maps keyed by path, one for the JSON
 * parameter documents and one for the `.obj` meshes, both in the results directory.
 */
module Results {
  import opened Wrappers
  import opened Schemas
  import Smpl

  /** The two files of one visit's result. */
  datatype ResultPaths = ResultPaths(params: string, mesh: string)

  /** The metrics snapshot copied from the analysis. */
  datatype Metrics = Metrics(angles: map<string, real>, symmetry: map<string, real>)

  /** The parameter document `finalize` writes. */
  datatype ResultDoc = ResultDoc(
    visitId: string,
    timestamp: string,
    smplAvailable: bool,
    smpl: Smpl.SmplParams,
    metrics: Metrics,
    meshUrl: string)

  /** Parameter documents by path. */
  type DocFiles = map<string, ResultDoc>

  /** Mesh files by path. */
  type MeshFiles = map<string, Smpl.Mesh>

  /** `os.path.join(results_dir, visit_id)`, without normalisation. */
  function Base(resultsDir: string, visitId: string): string {
    resultsDir + "/" + visitId
  }

  /** `_paths` / `_result_paths`: one base per id, with ".json" for parameters and ".obj" for the mesh. */
  function Paths(resultsDir: string, visitId: string): (p: ResultPaths)
    ensures p.params == Base(resultsDir, visitId) + ".json"
    ensures p.mesh == Base(resultsDir, visitId) + ".obj"
  {
    var base := Base(resultsDir, visitId);
    ResultPaths(base + ".json", base + ".obj")
  }

  lemma {:induction false} SameSuffixCancels(a: string, b: string, suffix: string)
    requires a + suffix == b + suffix
    ensures a == b
  {
    assert |a| == |b|;
    assert a == (a + suffix)[..|a|];
    assert b == (b + suffix)[..|b|];
  }

  lemma {:induction false} SamePrefixCancels(prefix: string, a: string, b: string)
    requires prefix + a == prefix + b
    ensures a == b
  {
    assert a == (prefix + a)[|prefix|..];
    assert b == (prefix + b)[|prefix|..];
  }

  /**
   * No two result files collide: a parameter path is never a mesh path, and
   * distinct visit ids get distinct paths of each kind.
   */
  lemma PathsNeverCollide(resultsDir: string, id1: string, id2: string)
    ensures Paths(resultsDir, id1).params != Paths(resultsDir, id2).mesh
    ensures id1 != id2 ==> Paths(resultsDir, id1).params != Paths(resultsDir, id2).params
    ensures id1 != id2 ==> Paths(resultsDir, id1).mesh != Paths(resultsDir, id2).mesh
  {
    var p1, p2 := Paths(resultsDir, id1), Paths(resultsDir, id2);
    assert p1.params[|p1.params| - 1] == 'n';
    assert p2.mesh[|p2.mesh| - 1] == 'j';
    if p1.params == p2.params {
      SameSuffixCancels(Base(resultsDir, id1), Base(resultsDir, id2), ".json");
      SamePrefixCancels(resultsDir + "/", id1, id2);
    }
    if p1.mesh == p2.mesh {
      SameSuffixCancels(Base(resultsDir, id1), Base(resultsDir, id2), ".obj");
      SamePrefixCancels(resultsDir + "/", id1, id2);
    }
  }

  /** The URL under which the mesh is served. */
  function MeshUrl(visitId: string): string {
    "/api/results/" + visitId + "/mesh.obj"
  }

  /** The document `finalize` writes for `visitId`, from the fitter's availability and output and the analysis. */
  function FinalDoc(visitId: string, timestamp: string, smplAvailable: bool, params: Smpl.SmplParams,
                    analysis: Analysis): (d: ResultDoc)
    ensures d.visitId == visitId && d.timestamp == timestamp && d.meshUrl == MeshUrl(visitId)
    ensures d.smplAvailable == smplAvailable && d.smpl == params
    ensures d.metrics.angles == analysis.angles && d.metrics.symmetry == analysis.symmetry
  {
    ResultDoc(visitId, timestamp, smplAvailable, params, Metrics(analysis.angles, analysis.symmetry),
              MeshUrl(visitId))
  }

  /** The parameter document stored for `visitId`, if any. */
  function LookupResult(docs: DocFiles, resultsDir: string, visitId: string): (r: Option<ResultDoc>)
    ensures r.None? <==> Paths(resultsDir, visitId).params !in docs
    ensures r.Some? ==> r.value == docs[Paths(resultsDir, visitId).params]
  {
    var path := Paths(resultsDir, visitId).params;
    if path in docs then Some(docs[path]) else None
  }

  /** The mesh stored for `visitId`, if any. */
  function LookupMesh(meshes: MeshFiles, resultsDir: string, visitId: string): (r: Option<Smpl.Mesh>)
    ensures r.None? <==> Paths(resultsDir, visitId).mesh !in meshes
    ensures r.Some? ==> r.value == meshes[Paths(resultsDir, visitId).mesh]
  {
    var path := Paths(resultsDir, visitId).mesh;
    if path in meshes then Some(meshes[path]) else None
  }

  /**
   * Finalizing one visit writes its two files and leaves every other visit's
   * result and mesh as they were; reading back gives what was just written.
   */
  lemma FinalizeWritesOnlyItsOwnFiles(docs: DocFiles, meshes: MeshFiles, resultsDir: string,
                                      visitId: string, doc: ResultDoc, mesh: Smpl.Mesh, other: string)
    requires other != visitId
    ensures var docs', meshes' := docs[Paths(resultsDir, visitId).params := doc],
                                  meshes[Paths(resultsDir, visitId).mesh := mesh];
            && LookupResult(docs', resultsDir, visitId) == Some(doc)
            && LookupMesh(meshes', resultsDir, visitId) == Some(mesh)
            && LookupResult(docs', resultsDir, other) == LookupResult(docs, resultsDir, other)
            && LookupMesh(meshes', resultsDir, other) == LookupMesh(meshes, resultsDir, other)
  {
    PathsNeverCollide(resultsDir, visitId, other);
  }

  /** A second finalize of the same id replaces the first: only the last write is visible. */
  lemma LastWriteWins(docs: DocFiles, meshes: MeshFiles, resultsDir: string, visitId: string,
                      doc1: ResultDoc, mesh1: Smpl.Mesh, doc2: ResultDoc, mesh2: Smpl.Mesh)
    ensures var p := Paths(resultsDir, visitId);
            && LookupResult(docs[p.params := doc1][p.params := doc2], resultsDir, visitId) == Some(doc2)
            && LookupMesh(meshes[p.mesh := mesh1][p.mesh := mesh2], resultsDir, visitId) == Some(mesh2)
  {
  }
}
