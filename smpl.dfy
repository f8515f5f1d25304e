/**
 * The SMPL body-mesh fitter (functions/backend/smpl_fitter.py): the availability
 * rule, the fallback parameters and cube, and the Wavefront OBJ serialiser.
 *
 * A mesh is the sequence of OBJ lines that the source joins with newlines;
 * vertex coordinates are kept as numbers, not formatted. The SMPL model run
 * (weights loading and the forward pass) is an input.
 */
module Smpl {
  import opened Wrappers
  import opened Schemas

  datatype Vertex = Vertex(x: real, y: real, z: real)

  /** One row of the model's 0-based triangle index array. */
  datatype Triangle = Triangle(i: int, j: int, k: int)

  /** One line of Wavefront OBJ text: `# ...`, `o name`, `v x y z` or `f i j k ...` (1-based). */
  datatype ObjLine = Comment(text: string) | ObjectName(name: string) | V(vertex: Vertex) | F(indices: seq<int>)

  type Mesh = seq<ObjLine>

  /** SMPL parameters: shape coefficients, axis-angle pose (global orientation first) and translation. */
  datatype SmplParams = SmplParams(betas: seq<real>, pose: seq<real>, transl: seq<real>)

  /** What creating the model and running its forward pass yields: a failure, or the posed mesh. */
  datatype ModelRun = RunRaises | RunOutput(vertices: seq<Vertex>, faces: seq<Triangle>)

  /**
   * The environment `SmplFitter()` probes: whether `smplx` and `torch` import,
   * the `SMPL_MODEL_DIR` variable, the absolute path of "models", and which paths are directories.
   */
  datatype FitterEnv = FitterEnv(librariesLoad: bool, modelDirVar: Option<string>,
                                 defaultModelDir: string, isDir: string -> bool)

  function Zeros(n: nat): (z: seq<real>)
    ensures |z| == n
    ensures forall i :: 0 <= i < n ==> z[i] == 0.0
  {
    seq(n, _ => 0.0)
  }

  predicate AllZero(s: seq<real>) {
    forall i :: 0 <= i < |s| ==> s[i] == 0.0
  }

  /** The model directory: `SMPL_MODEL_DIR` when set and non-empty, else the local "models" path. */
  function ModelDir(modelDirVar: Option<string>, defaultModelDir: string): (dir: string)
    ensures modelDirVar.Some? && modelDirVar.value != "" ==> dir == modelDirVar.value
    ensures modelDirVar.None? || modelDirVar.value == "" ==> dir == defaultModelDir
  {
    if modelDirVar.Some? && modelDirVar.value != "" then modelDirVar.value else defaultModelDir
  }

  /** `available`: both libraries load and the model directory exists. */
  function Available(env: FitterEnv): (ok: bool)
    ensures ok ==> env.librariesLoad
    ensures ok <==> env.librariesLoad && env.isDir(ModelDir(env.modelDirVar, env.defaultModelDir))
  {
    env.librariesLoad && env.isDir(ModelDir(env.modelDirVar, env.defaultModelDir))
  }

  /** The neutral parameters returned on the fallback path: 10, 72 and 3 zeros. */
  function FallbackParams(): (p: SmplParams)
    ensures |p.betas| == 10 && |p.pose| == 72 && |p.transl| == 3
    ensures AllZero(p.betas) && AllZero(p.pose) && AllZero(p.transl)
  {
    SmplParams(Zeros(10), Zeros(72), Zeros(3))
  }

  /**
   * The parameters of the fitted path: zero betas, the 3 global-orientation
   * values followed by the 69 body-pose values, and zero translation.
   * They coincide with the fallback parameters.
   */
  function FittedParams(): (p: SmplParams)
    ensures |p.pose| == 3 + 69
    ensures p == FallbackParams()
  {
    var p := SmplParams(Zeros(10), Zeros(3) + Zeros(69), Zeros(3));
    assert p.pose == Zeros(72);
    p
  }

  /** The two header lines of a fitted mesh. */
  const SmplHeader: Mesh := [Comment("SMPL mesh"), ObjectName("SMPL")]

  /** One `v` line per vertex, in order. */
  function VertexLines(vs: seq<Vertex>): (lines: Mesh)
    ensures |lines| == |vs|
  {
    if vs == [] then [] else VertexLines(vs[..|vs| - 1]) + [V(vs[|vs| - 1])]
  }

  /** One `f` line per index list, in order. */
  function FaceLines(fs: seq<seq<int>>): (lines: Mesh)
    ensures |lines| == |fs|
  {
    if fs == [] then [] else FaceLines(fs[..|fs| - 1]) + [F(fs[|fs| - 1])]
  }

  /** The `v` line at each position is that vertex's. */
  lemma {:induction false} VertexLinesAt(vs: seq<Vertex>)
    ensures forall i :: 0 <= i < |vs| ==> VertexLines(vs)[i] == V(vs[i])
  {
    if vs != [] {
      VertexLinesAt(vs[..|vs| - 1]);
    }
  }

  /** The `f` line at each position is that index list's. */
  lemma {:induction false} FaceLinesAt(fs: seq<seq<int>>)
    ensures forall i :: 0 <= i < |fs| ==> FaceLines(fs)[i] == F(fs[i])
  {
    if fs != [] {
      FaceLinesAt(fs[..|fs| - 1]);
    }
  }

  /** A triangle's indices shifted from 0-based to 1-based, as OBJ numbers vertices. */
  function OneBased(t: Triangle): (r: seq<int>)
    ensures r == [t.i + 1, t.j + 1, t.k + 1]
  {
    Shift([t.i, t.j, t.k], 1)
  }

  /** The 1-based index lists of a triangle sequence, in order. */
  function OneBasedAll(fs: seq<Triangle>): (r: seq<seq<int>>)
    ensures |r| == |fs|
  {
    if fs == [] then [] else OneBasedAll(fs[..|fs| - 1]) + [OneBased(fs[|fs| - 1])]
  }

  /** Each triangle is shifted at its own position. */
  lemma {:induction false} OneBasedAllAt(fs: seq<Triangle>)
    ensures forall i :: 0 <= i < |fs| ==> OneBasedAll(fs)[i] == OneBased(fs[i])
  {
    if fs != [] {
      OneBasedAllAt(fs[..|fs| - 1]);
    }
  }

  /** The OBJ document `_to_obj` produces. */
  function ObjDoc(vs: seq<Vertex>, fs: seq<Triangle>): (m: Mesh)
    ensures |m| == 2 + |vs| + |fs|
    ensures m[0] == Comment("SMPL mesh") && m[1] == ObjectName("SMPL")
  {
    SmplHeader + VertexLines(vs) + FaceLines(OneBasedAll(fs))
  }

  /** The line layout of `_to_obj`'s output: the `v` lines in vertex order, then the `f` lines in face order, 1-based. */
  lemma ObjDocLayout(vs: seq<Vertex>, fs: seq<Triangle>)
    ensures forall i :: 0 <= i < |vs| ==> ObjDoc(vs, fs)[2 + i] == V(vs[i])
    ensures forall i :: 0 <= i < |fs| ==> ObjDoc(vs, fs)[2 + |vs| + i] == F([fs[i].i + 1, fs[i].j + 1, fs[i].k + 1])
  {
    var vls, fls := VertexLines(vs), FaceLines(OneBasedAll(fs));
    VertexLinesAt(vs);
    FaceLinesAt(OneBasedAll(fs));
    OneBasedAllAt(fs);
    assert ObjDoc(vs, fs) == SmplHeader + vls + fls;
    forall i | 0 <= i < |vs|
      ensures ObjDoc(vs, fs)[2 + i] == V(vs[i])
    {
      assert (SmplHeader + vls + fls)[2 + i] == vls[i];
    }
    forall i | 0 <= i < |fs|
      ensures ObjDoc(vs, fs)[2 + |vs| + i] == F([fs[i].i + 1, fs[i].j + 1, fs[i].k + 1])
    {
      assert (SmplHeader + vls + fls)[2 + |vs| + i] == fls[i];
    }
  }

  lemma VertexLinesSnoc(vs: seq<Vertex>, n: nat)
    requires n < |vs|
    ensures VertexLines(vs[..n + 1]) == VertexLines(vs[..n]) + [V(vs[n])]
  {
    assert vs[..n + 1][..n] == vs[..n];
  }

  lemma FaceLinesSnoc(fs: seq<Triangle>, n: nat)
    requires n < |fs|
    ensures FaceLines(OneBasedAll(fs[..n + 1])) == FaceLines(OneBasedAll(fs[..n])) + [F(OneBased(fs[n]))]
  {
    assert fs[..n + 1][..n] == fs[..n];
    var done := OneBasedAll(fs[..n]);
    assert OneBasedAll(fs[..n + 1]) == done + [OneBased(fs[n])];
    assert (done + [OneBased(fs[n])])[..|done|] == done;
  }

  /** `_to_obj`: the header, then a `v` line per vertex, then an `f` line per face. */
  method ToObj(vertices: seq<Vertex>, faces: seq<Triangle>) returns (lines: Mesh)
    ensures lines == ObjDoc(vertices, faces)
  {
    lines := SmplHeader;
    for n := 0 to |vertices|
      invariant lines == SmplHeader + VertexLines(vertices[..n])
    {
      VertexLinesSnoc(vertices, n);
      lines := lines + [V(vertices[n])];
    }
    assert vertices[..|vertices|] == vertices;
    ghost var header := SmplHeader + VertexLines(vertices);
    for n := 0 to |faces|
      invariant lines == header + FaceLines(OneBasedAll(faces[..n]))
    {
      FaceLinesSnoc(faces, n);
      lines := lines + [F(OneBased(faces[n]))];
    }
    assert faces[..|faces|] == faces;
  }

  /** The vertices an OBJ document declares, in order. */
  function VerticesOf(m: Mesh): seq<Vertex> {
    if m == [] then []
    else VerticesOf(m[..|m| - 1]) + (if m[|m| - 1].V? then [m[|m| - 1].vertex] else [])
  }

  /** The faces an OBJ document declares, as the index lists written in the file. */
  function FacesOf(m: Mesh): seq<seq<int>> {
    if m == [] then []
    else FacesOf(m[..|m| - 1]) + (if m[|m| - 1].F? then [m[|m| - 1].indices] else [])
  }

  function Shift(s: seq<int>, d: int): (r: seq<int>)
    ensures |r| == |s| && forall i :: 0 <= i < |s| ==> r[i] == s[i] + d
  {
    seq(|s|, i requires 0 <= i < |s| => s[i] + d)
  }

  lemma {:induction false} VerticesOfAppend(a: Mesh, b: Mesh)
    ensures VerticesOf(a + b) == VerticesOf(a) + VerticesOf(b)
  {
    if b != [] {
      assert (a + b)[..|a + b| - 1] == a + b[..|b| - 1];
      VerticesOfAppend(a, b[..|b| - 1]);
    } else {
      assert a + b == a;
    }
  }

  lemma {:induction false} FacesOfAppend(a: Mesh, b: Mesh)
    ensures FacesOf(a + b) == FacesOf(a) + FacesOf(b)
  {
    if b != [] {
      assert (a + b)[..|a + b| - 1] == a + b[..|b| - 1];
      FacesOfAppend(a, b[..|b| - 1]);
    } else {
      assert a + b == a;
    }
  }

  lemma {:induction false} VertexLinesRead(vs: seq<Vertex>)
    ensures VerticesOf(VertexLines(vs)) == vs
    ensures FacesOf(VertexLines(vs)) == []
  {
    if vs != [] {
      var init := vs[..|vs| - 1];
      VertexLinesRead(init);
      assert VertexLines(vs)[..|vs| - 1] == VertexLines(init);
    }
  }

  lemma {:induction false} FaceLinesRead(fs: seq<seq<int>>)
    ensures VerticesOf(FaceLines(fs)) == []
    ensures FacesOf(FaceLines(fs)) == fs
  {
    if fs != [] {
      var init := fs[..|fs| - 1];
      FaceLinesRead(init);
      assert FaceLines(fs)[..|fs| - 1] == FaceLines(init);
    }
  }

  /** Two header lines declare no geometry. */
  lemma HeaderReadsEmpty(a: ObjLine, b: ObjLine)
    requires !a.V? && !a.F? && !b.V? && !b.F?
    ensures VerticesOf([a, b]) == [] && FacesOf([a, b]) == []
  {
    assert [a, b][..1] == [a];
    assert [a][..0] == [];
    assert VerticesOf([a]) == VerticesOf([]) + [];
    assert FacesOf([a]) == FacesOf([]) + [];
    assert VerticesOf([a, b]) == VerticesOf([a]) + [];
    assert FacesOf([a, b]) == FacesOf([a]) + [];
  }

  /** Reading back a header followed by `v` lines and `f` lines gives the vertices and the face index lists. */
  lemma {:induction false} ReadBack(h: Mesh, vs: seq<Vertex>, fs: seq<seq<int>>)
    requires |h| == 2 && !h[0].V? && !h[0].F? && !h[1].V? && !h[1].F?
    ensures VerticesOf(h + VertexLines(vs) + FaceLines(fs)) == vs
    ensures FacesOf(h + VertexLines(vs) + FaceLines(fs)) == fs
  {
    HeaderReadsEmpty(h[0], h[1]);
    assert h == [h[0], h[1]];
    VertexLinesRead(vs);
    FaceLinesRead(fs);
    VerticesOfAppend(h + VertexLines(vs), FaceLines(fs));
    VerticesOfAppend(h, VertexLines(vs));
    FacesOfAppend(h + VertexLines(vs), FaceLines(fs));
    FacesOfAppend(h, VertexLines(vs));
  }

  /**
   * Reading a serialised mesh back gives the vertices in order and each face as
   * its triangle's indices plus one; undoing that shift recovers the triangle.
   */
  lemma ObjRoundTrip(vs: seq<Vertex>, fs: seq<Triangle>)
    ensures VerticesOf(ObjDoc(vs, fs)) == vs
    ensures |FacesOf(ObjDoc(vs, fs))| == |fs|
    ensures forall i :: 0 <= i < |fs| ==> Shift(FacesOf(ObjDoc(vs, fs))[i], -1) == [fs[i].i, fs[i].j, fs[i].k]
  {
    ReadBack(SmplHeader, vs, OneBasedAll(fs));
    OneBasedAllAt(fs);
  }

  /** Every `f` line refers only to vertices 1..n. */
  predicate FaceIndicesWithin(m: Mesh, n: nat) {
    forall f :: f in FacesOf(m) ==> forall k :: 0 <= k < |f| ==> 1 <= f[k] <= n
  }

  /** A well-formed OBJ document: every face refers to a vertex it declares. */
  predicate WellFormedObj(m: Mesh) {
    FaceIndicesWithin(m, |VerticesOf(m)|)
  }

  /** When the model's triangles index its vertices (0-based), the serialised mesh is well formed. */
  lemma ObjDocWellFormed(vs: seq<Vertex>, fs: seq<Triangle>)
    requires forall t :: 0 <= t < |fs| ==> 0 <= fs[t].i < |vs| && 0 <= fs[t].j < |vs| && 0 <= fs[t].k < |vs|
    ensures WellFormedObj(ObjDoc(vs, fs))
  {
    var faces := OneBasedAll(fs);
    ReadBack(SmplHeader, vs, faces);
    OneBasedAllAt(fs);
    forall f | f in faces
      ensures forall k :: 0 <= k < |f| ==> 1 <= f[k] <= |vs|
    {
      var t :| 0 <= t < |faces| && faces[t] == f;
      assert f == [fs[t].i + 1, fs[t].j + 1, fs[t].k + 1];
    }
  }

  const CubeVertices: seq<Vertex> := [
    Vertex(-0.5, -0.5, -0.5), Vertex(0.5, -0.5, -0.5), Vertex(0.5, 0.5, -0.5), Vertex(-0.5, 0.5, -0.5),
    Vertex(-0.5, -0.5, 0.5), Vertex(0.5, -0.5, 0.5), Vertex(0.5, 0.5, 0.5), Vertex(-0.5, 0.5, 0.5)
  ]

  const CubeFaces: seq<seq<int>> := [
    [1, 2, 3, 4], [5, 6, 7, 8], [1, 5, 8, 4], [2, 6, 7, 3], [4, 3, 7, 8], [1, 2, 6, 5]
  ]

  lemma CubeFacesInRange()
    ensures forall f :: f in CubeFaces ==> |f| == 4 && forall k :: 0 <= k < 4 ==> 1 <= f[k] <= 8
  {
    forall t | 0 <= t < |CubeFaces|
      ensures |CubeFaces[t]| == 4 && forall k :: 0 <= k < 4 ==> 1 <= CubeFaces[t][k] <= 8
    {
    }
  }

  lemma HeaderKept(h: Mesh, vls: Mesh, fls: Mesh)
    requires |h| == 2
    ensures |h + vls + fls| == 2 + |vls| + |fls|
    ensures (h + vls + fls)[0] == h[0] && (h + vls + fls)[1] == h[1]
  {
  }

  /** `_cube_obj`: the fixed placeholder cube of 8 vertices and 6 quadrilateral faces. */
  function CubeObj(): (m: Mesh)
    ensures |m| == 16 && m[0] == Comment("simple cube") && m[1] == ObjectName("Cube")
    ensures VerticesOf(m) == CubeVertices && |VerticesOf(m)| == 8
    ensures FacesOf(m) == CubeFaces && |FacesOf(m)| == 6
    ensures forall f :: f in FacesOf(m) ==> |f| == 4
    ensures WellFormedObj(m)
  {
    var m := [Comment("simple cube"), ObjectName("Cube")] + VertexLines(CubeVertices) + FaceLines(CubeFaces);
    ReadBack([Comment("simple cube"), ObjectName("Cube")], CubeVertices, CubeFaces);
    HeaderKept([Comment("simple cube"), ObjectName("Cube")], VertexLines(CubeVertices), FaceLines(CubeFaces));
    CubeFacesInRange();
    m
  }

  /** The mesh `fit` returns: the fitted model's mesh when available and the run succeeds, else the cube. */
  function FitMesh(available: bool, run: ModelRun): Mesh {
    if available && run.RunOutput? then ObjDoc(run.vertices, run.faces) else CubeObj()
  }

  class SmplFitter {
    var available: bool
    var modelDir: Option<string>

    /** `SmplFitter()`: probe the libraries and the model directory once. */
    constructor (env: FitterEnv)
      ensures available == Available(env)
      ensures modelDir == if env.librariesLoad then Some(ModelDir(env.modelDirVar, env.defaultModelDir)) else None
    {
      available := false;
      modelDir := None;
      if env.librariesLoad {
        var dir := ModelDir(env.modelDirVar, env.defaultModelDir);
        modelDir := Some(dir);
        if env.isDir(dir) {
          available := true;
        }
      }
    }

    /**
     * `fit(keypoints_2d)`: the keypoints are not used. The parameters are the
     * neutral ones on every path; the mesh is the fitted one or the cube.
     */
    method Fit(keypoints: KeypointSet, run: ModelRun) returns (params: SmplParams, mesh: Mesh)
      ensures params == FallbackParams()
      ensures mesh == FitMesh(available, run)
      ensures available && run.RunOutput? ==> mesh == ObjDoc(run.vertices, run.faces)
      ensures !available || run.RunRaises? ==> mesh == CubeObj()
    {
      if available {
        match run {
          case RunOutput(vertices, faces) =>
            params := FittedParams();
            mesh := ToObj(vertices, faces);
            return;
          case RunRaises =>
        }
      }
      params := FallbackParams();
      mesh := CubeObj();
    }
  }
}
