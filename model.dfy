// The model loader: it walks an imported scene graph, turns every mesh a
// node refers to into a Mesh (vertex positions and normals, and the faces'
// indices flattened into one list), keeps the resulting meshes in
// traversal order, records the directory of the model file, and draws by
// drawing each of its meshes in turn.
//
// The importer itself is not modelled: the scene it returns is an input
// value, a tree of nodes holding indices into the scene's mesh array.
module Model {
  import opened Glm
  import opened Strings
  import Mesh

  datatype Face = Face(indices: seq<nat>)

  datatype SceneMesh = SceneMesh(vertices: seq<Vec3>, normals: seq<Vec3>, faces: seq<Face>)

  datatype Node = Node(meshes: seq<nat>, children: seq<Node>)

  datatype Scene = Scene(meshes: seq<SceneMesh>, root: Node)

  /** Every vertex has a normal. */
  predicate MeshWellFormed(m: SceneMesh) {
    |m.normals| >= |m.vertices|
  }

  /** Every mesh index in the tree under n names one of the scene's count meshes. */
  predicate NodeInBounds(n: Node, count: nat) {
    (forall i :: 0 <= i < |n.meshes| ==> n.meshes[i] < count) &&
    (forall c :: c in n.children ==> NodeInBounds(c, count))
  }

  predicate SceneWellFormed(s: Scene) {
    NodeInBounds(s.root, |s.meshes|) &&
    forall i :: 0 <= i < |s.meshes| ==> MeshWellFormed(s.meshes[i])
  }

  /** The mesh indices of the tree under n in pre-order: a node's own meshes, then its children's. */
  function Flatten(n: Node): seq<nat>
    decreases n, 1
  {
    n.meshes + FlattenChildren(n, |n.children|)
  }

  /** The flattened trees of the first j children of n, one after the other. */
  function FlattenChildren(n: Node, j: nat): seq<nat>
    requires j <= |n.children|
    decreases n, 0, j
  {
    if j == 0 then [] else FlattenChildren(n, j - 1) + Flatten(n.children[j - 1])
  }

  /** The sum of the numbers of meshes of all nodes under n. */
  function MeshCount(n: Node): nat
    decreases n, 1
  {
    |n.meshes| + ChildrenMeshCount(n, |n.children|)
  }

  function ChildrenMeshCount(n: Node, j: nat): nat
    requires j <= |n.children|
    decreases n, 0, j
  {
    if j == 0 then 0 else ChildrenMeshCount(n, j - 1) + MeshCount(n.children[j - 1])
  }

  /** The flattening holds one entry per mesh reference of every node. */
  lemma {:induction false} FlattenLength(n: Node)
    ensures |Flatten(n)| == MeshCount(n)
    decreases n, 1
  {
    FlattenChildrenLength(n, |n.children|);
  }

  lemma {:induction false} FlattenChildrenLength(n: Node, j: nat)
    requires j <= |n.children|
    ensures |FlattenChildren(n, j)| == ChildrenMeshCount(n, j)
    decreases n, 0, j
  {
    if j > 0 {
      FlattenChildrenLength(n, j - 1);
      FlattenLength(n.children[j - 1]);
    }
  }

  /** Every index of the flattening is in bounds when the tree's indices are. */
  lemma {:induction false} FlattenInBounds(n: Node, count: nat)
    requires NodeInBounds(n, count)
    ensures forall k :: 0 <= k < |Flatten(n)| ==> Flatten(n)[k] < count
    decreases n, 1
  {
    FlattenChildrenInBounds(n, |n.children|, count);
  }

  lemma {:induction false} FlattenChildrenInBounds(n: Node, j: nat, count: nat)
    requires j <= |n.children| && NodeInBounds(n, count)
    ensures forall k :: 0 <= k < |FlattenChildren(n, j)| ==> FlattenChildren(n, j)[k] < count
    decreases n, 0, j
  {
    if j > 0 {
      FlattenChildrenInBounds(n, j - 1, count);
      assert n.children[j - 1] in n.children;
      FlattenInBounds(n.children[j - 1], count);
    }
  }

  /** The faces' index lists, concatenated in face order. */
  function FaceIndices(fs: seq<Face>): seq<nat> {
    if fs == [] then [] else FaceIndices(fs[..|fs| - 1]) + fs[|fs| - 1].indices
  }

  /** The sum of the faces' index counts. */
  function IndexCount(fs: seq<Face>): nat {
    if fs == [] then 0 else IndexCount(fs[..|fs| - 1]) + |fs[|fs| - 1].indices|
  }

  /**
   * Index j of face k sits in the flat list right after the indices of the
   * faces before k, and the list holds exactly the faces' indices.
   */
  lemma {:induction false} FaceIndicesAt(fs: seq<Face>, k: nat, j: nat)
    requires k < |fs| && j < |fs[k].indices|
    ensures |FaceIndices(fs)| == IndexCount(fs)
    ensures IndexCount(fs[..k]) + j < |FaceIndices(fs)|
    ensures FaceIndices(fs)[IndexCount(fs[..k]) + j] == fs[k].indices[j]
  {
    var n := |fs| - 1;
    FaceIndicesLength(fs);
    FaceIndicesLength(fs[..n]);
    if k < n {
      FaceIndicesAt(fs[..n], k, j);
      assert fs[..n][..k] == fs[..k];
    } else {
      assert fs[..k] == fs[..n];
    }
  }

  lemma {:induction false} FaceIndicesLength(fs: seq<Face>)
    ensures |FaceIndices(fs)| == IndexCount(fs)
  {
    if fs != [] {
      FaceIndicesLength(fs[..|fs| - 1]);
    }
  }

  /** The mesh built for src: its vertices and normals, its flattened faces, no textures. */
  predicate Converted(m: Mesh.Mesh, src: SceneMesh) {
    |m.vertices| == |src.vertices| && |src.normals| >= |src.vertices| &&
    (forall i :: 0 <= i < |m.vertices| ==> m.vertices[i] == Mesh.Vertex(src.vertices[i], src.normals[i], Zero2)) &&
    m.indices == FaceIndices(src.faces) &&
    m.textures == []
  }

  /** ms are the meshes built from the scene meshes named by order, one for one. */
  predicate Loaded(ms: seq<Mesh.Mesh>, scene: Scene, order: seq<nat>) {
    |ms| == |order| &&
    forall k :: 0 <= k < |ms| ==> order[k] < |scene.meshes| && Converted(ms[k], scene.meshes[order[k]])
  }

  lemma LoadedAppend(a: seq<Mesh.Mesh>, b: seq<Mesh.Mesh>, scene: Scene, oa: seq<nat>, ob: seq<nat>)
    requires Loaded(a, scene, oa) && Loaded(b, scene, ob)
    ensures Loaded(a + b, scene, oa + ob)
  {
    forall k | 0 <= k < |a + b|
      ensures (oa + ob)[k] < |scene.meshes| && Converted((a + b)[k], scene.meshes[(oa + ob)[k]])
    {
      if k >= |a| {
        assert (a + b)[k] == b[k - |a|] && (oa + ob)[k] == ob[k - |a|];
      }
    }
  }

  /** One more of a node's own meshes has been loaded. */
  lemma LoadedOwnStep(added: seq<Mesh.Mesh>, m: Mesh.Mesh, scene: Scene, node: Node, i: nat)
    requires i < |node.meshes| && node.meshes[i] < |scene.meshes|
    requires Loaded(added, scene, node.meshes[..i]) && Converted(m, scene.meshes[node.meshes[i]])
    ensures Loaded(added + [m], scene, node.meshes[..i + 1])
  {
    LoadedAppend(added, [m], scene, node.meshes[..i], [node.meshes[i]]);
    assert node.meshes[..i + 1] == node.meshes[..i] + [node.meshes[i]];
  }

  /** The meshes of one more child subtree have been loaded. */
  lemma LoadedChildStep(added: seq<Mesh.Mesh>, fromChild: seq<Mesh.Mesh>, scene: Scene, node: Node, j: nat)
    requires j < |node.children|
    requires Loaded(added, scene, node.meshes + FlattenChildren(node, j))
    requires Loaded(fromChild, scene, Flatten(node.children[j]))
    ensures Loaded(added + fromChild, scene, node.meshes + FlattenChildren(node, j + 1))
  {
    LoadedAppend(added, fromChild, scene, node.meshes + FlattenChildren(node, j), Flatten(node.children[j]));
    assert node.meshes + FlattenChildren(node, j + 1) ==
           (node.meshes + FlattenChildren(node, j)) + Flatten(node.children[j]);
  }

  lemma AppendAssociative(a: seq<Mesh.Mesh>, b: seq<Mesh.Mesh>, c: seq<Mesh.Mesh>)
    ensures (a + b) + c == a + (b + c)
  {
  }

  lemma SplitAt(s: seq<Mesh.Mesh>, n: nat)
    requires n <= |s|
    ensures s == s[..n] + s[n..]
  {
  }

  /** mDirectory: the path up to, and not including, its last '/', or all of it if it has none. */
  function Directory(path: string): (dir: string)
    ensures '/' !in path ==> dir == path
    ensures '/' in path ==>
      |dir| < |path| && dir == path[..|dir|] && path[|dir|] == '/' &&
      (forall k :: |dir| < k < |path| ==> path[k] != '/')
  {
    match LastIndexOf(path, '/')
    case None => path
    case Some(k) => path[..k]
  }

  /** The directory of a file name joined to a directory is that directory. */
  lemma DirectoryOfJoin(dir: string, name: string)
    requires '/' !in name
    ensures Directory(dir + "/" + name) == dir
  {
    var path := dir + "/" + name;
    assert path[|dir|] == '/';
    var d := Directory(path);
    assert forall k :: |dir| < k < |path| ==> path[k] == name[k - |dir| - 1];
    assert |d| <= |dir|;
    assert |d| >= |dir|;
  }

  /** Every call the meshes' draws make, mesh after mesh, in list order. */
  function DrawAll(ms: seq<Mesh.Mesh>): seq<Mesh.GlCall> {
    if ms == [] then []
    else
      var last := ms[|ms| - 1];
      DrawAll(ms[..|ms| - 1]) + Mesh.DrawCalls(last.textures, |last.indices|)
  }

  /** Drawing the model draws every mesh exactly once, in insertion order, with all of its indices. */
  lemma {:induction false} DrawAllOncePerMesh(ms: seq<Mesh.Mesh>)
    ensures |Mesh.DrawCounts(DrawAll(ms))| == |ms|
    ensures forall k :: 0 <= k < |ms| ==> Mesh.DrawCounts(DrawAll(ms))[k] == |ms[k].indices|
  {
    if ms != [] {
      var n := |ms| - 1;
      DrawAllOncePerMesh(ms[..n]);
      DrawAllStep(ms);
      var counts := Mesh.DrawCounts(DrawAll(ms));
      forall k | 0 <= k < n
        ensures counts[k] == |ms[k].indices|
      {
        assert ms[..n][k] == ms[k];
      }
    }
  }

  /** The last mesh adds exactly one draw, after those of the meshes before it. */
  lemma DrawAllStep(ms: seq<Mesh.Mesh>)
    requires ms != []
    ensures Mesh.DrawCounts(DrawAll(ms)) == Mesh.DrawCounts(DrawAll(ms[..|ms| - 1])) + [|ms[|ms| - 1].indices|]
  {
    var n := |ms| - 1;
    var last := Mesh.DrawCalls(ms[n].textures, |ms[n].indices|);
    Mesh.DrawCountsAppend(DrawAll(ms[..n]), last);
    Mesh.OneDrawPerMesh(ms[n].textures, |ms[n].indices|);
  }

  class Model {
    var meshes: seq<Mesh.Mesh>
    var directory: string

    /** Loads the scene imported from path: directory, then every mesh in traversal order. */
    constructor (path: string, scene: Scene)
      requires SceneWellFormed(scene)
      ensures directory == Directory(path)
      ensures Loaded(meshes, scene, Flatten(scene.root))
      ensures |meshes| == MeshCount(scene.root)
      ensures forall k :: 0 <= k < |meshes| ==> fresh(meshes[k])
    {
      directory := Directory(path);
      meshes := [];
      new;
      ProcessNode(scene.root, scene);
      FlattenLength(scene.root);
    }

    /** Draws each mesh in turn. */
    method Draw() returns (calls: seq<Mesh.GlCall>)
      ensures calls == DrawAll(meshes)
    {
      calls := [];
      var i := 0;
      while i < |meshes|
        invariant 0 <= i <= |meshes|
        invariant calls == DrawAll(meshes[..i])
      {
        var c := meshes[i].Draw();
        assert meshes[..i + 1][..i] == meshes[..i];
        calls := calls + c;
        i := i + 1;
      }
      assert meshes[..i] == meshes;
    }

    /**
     * Appends the meshes of node and then those of its children, in order;
     * the meshes already loaded are left as they are.
     */
    method ProcessNode(node: Node, scene: Scene)
      requires NodeInBounds(node, |scene.meshes|)
      requires forall i :: 0 <= i < |scene.meshes| ==> MeshWellFormed(scene.meshes[i])
      modifies this`meshes
      ensures |meshes| >= |old(meshes)| && meshes[..|old(meshes)|] == old(meshes)
      ensures Loaded(meshes[|old(meshes)|..], scene, Flatten(node))
      ensures forall k :: |old(meshes)| <= k < |meshes| ==> fresh(meshes[k])
      decreases node
    {
      ghost var added: seq<Mesh.Mesh> := [];
      var i := 0;
      while i < |node.meshes|
        invariant 0 <= i <= |node.meshes|
        invariant meshes == old(meshes) + added
        invariant Loaded(added, scene, node.meshes[..i])
        invariant forall k :: 0 <= k < |added| ==> fresh(added[k])
      {
        var m := ProcessMesh(scene.meshes[node.meshes[i]]);
        LoadedOwnStep(added, m, scene, node, i);
        AppendAssociative(old(meshes), added, [m]);
        meshes := meshes + [m];
        added := added + [m];
        i := i + 1;
      }
      assert node.meshes[..i] == node.meshes;
      var j := 0;
      while j < |node.children|
        invariant 0 <= j <= |node.children|
        invariant meshes == old(meshes) + added
        invariant Loaded(added, scene, node.meshes + FlattenChildren(node, j))
        invariant forall k :: 0 <= k < |added| ==> fresh(added[k])
      {
        ghost var before := meshes;
        assert node.children[j] in node.children;
        ProcessNode(node.children[j], scene);
        ghost var fromChild := meshes[|before|..];
        SplitAt(meshes, |before|);
        AppendAssociative(old(meshes), added, fromChild);
        LoadedChildStep(added, fromChild, scene, node, j);
        added := added + fromChild;
        j := j + 1;
      }
      assert meshes[|old(meshes)|..] == added;
    }

    /** Builds one mesh: a vertex per position with its normal, and the faces' indices in order. */
    method ProcessMesh(src: SceneMesh) returns (m: Mesh.Mesh)
      requires MeshWellFormed(src)
      ensures fresh(m) && Converted(m, src)
    {
      var vertices: seq<Mesh.Vertex> := [];
      var i := 0;
      while i < |src.vertices|
        invariant 0 <= i <= |src.vertices| && |vertices| == i
        invariant forall k :: 0 <= k < i ==> vertices[k] == Mesh.Vertex(src.vertices[k], src.normals[k], Zero2)
      {
        vertices := vertices + [Mesh.Vertex(src.vertices[i], src.normals[i], Zero2)];
        i := i + 1;
      }
      var indices: seq<nat> := [];
      var f := 0;
      while f < |src.faces|
        invariant 0 <= f <= |src.faces|
        invariant indices == FaceIndices(src.faces[..f])
      {
        var face := src.faces[f];
        var j := 0;
        while j < |face.indices|
          invariant 0 <= j <= |face.indices|
          invariant indices == FaceIndices(src.faces[..f]) + face.indices[..j]
        {
          indices := indices + [face.indices[j]];
          assert face.indices[..j + 1] == face.indices[..j] + [face.indices[j]];
          j := j + 1;
        }
        assert face.indices[..j] == face.indices;
        assert src.faces[..f + 1][..f] == src.faces[..f];
        f := f + 1;
      }
      assert src.faces[..f] == src.faces;
      m := new Mesh.Mesh(vertices, indices, []);
    }
  }
}
