/**
  The importer-independent bookkeeping of include/LearnOpenGL/Model.h:
  the load-error exit, the model directory, pre-order flattening of the node
  tree, vertex and index extraction, the `textures_loaded` cache, and the
  path and pixel-format logic of `TextureFromFile`. The Assimp scene is an
  input value; the image decoder is an input function from file name to
  component count.
 */
module Model {
  import opened Vec
  import opened Wrappers
  import opened Mesh

  // ---------------------------------------------------------------------------
  // The imported scene, as plain data

  /** The four Assimp texture slots the loader asks for. */
  datatype AiTextureType = AiDiffuse | AiSpecular | AiHeight | AiAmbient

  /** `aiMaterial`: texture paths per slot, and the shininess lookup (None when it fails). */
  datatype AiMaterial = AiMaterial(textures: map<AiTextureType, seq<string>>, shininess: Option<real>)

  /** `aiMesh`. `texCoords` is texture channel 0, absent when the channel is missing. */
  datatype AiMesh = AiMesh(
    vertices: seq<Vec3>,
    normals: Option<seq<Vec3>>,
    texCoords: Option<seq<Vec3>>,
    tangents: seq<Vec3>,
    bitangents: seq<Vec3>,
    faces: seq<seq<nat>>,
    materialIndex: nat)

  /** `aiNode`: indices into the scene's mesh table, and child nodes. */
  datatype AiNode = AiNode(meshes: seq<nat>, children: seq<AiNode>)

  /** `aiScene`; `incomplete` is the AI_SCENE_FLAGS_INCOMPLETE bit. */
  datatype AiScene = AiScene(incomplete: bool, root: Option<AiNode>, meshes: seq<AiMesh>, materials: seq<AiMaterial>)

  /** `GetTexture(type, i)` for i below `GetTextureCount(type)`. */
  function TexturePaths(mat: AiMaterial, t: AiTextureType): seq<string> {
    if t in mat.textures then mat.textures[t] else []
  }

  /** The per-vertex arrays the loader reads have one entry per vertex. */
  predicate MeshValid(m: AiMesh) {
    && (m.normals.Some? ==> |m.normals.value| == |m.vertices|)
    && (m.texCoords.Some? ==> |m.texCoords.value| == |m.vertices|
                              && |m.tangents| == |m.vertices| && |m.bitangents| == |m.vertices|)
  }

  predicate SceneValid(s: AiScene) {
    forall i :: 0 <= i < |s.meshes| ==> MeshValid(s.meshes[i]) && s.meshes[i].materialIndex < |s.materials|
  }

  /** Every mesh index in the tree names an entry of a table of `n` meshes. */
  predicate NodeValid(node: AiNode, n: nat)
    decreases node
  {
    (forall i :: 0 <= i < |node.meshes| ==> node.meshes[i] < n) && NodesValid(node.children, n)
  }

  predicate NodesValid(nodes: seq<AiNode>, n: nat)
    decreases nodes
  {
    |nodes| > 0 ==> NodeValid(nodes[0], n) && NodesValid(nodes[1..], n)
  }

  // ---------------------------------------------------------------------------
  // Paths

  /** `find_last_of('/')`: the index of the last slash, if any. */
  function LastSlash(path: string): (r: Option<nat>)
    ensures r.None? <==> '/' !in path
    ensures r.Some? ==> r.value < |path| && path[r.value] == '/'
                        && forall k :: r.value < k < |path| ==> path[k] != '/'
    decreases |path|
  {
    if |path| == 0 then None
    else if path[|path| - 1] == '/' then Some(|path| - 1)
    else
      var r := LastSlash(path[..|path| - 1]);
      assert forall k :: 0 <= k < |path| - 1 ==> path[..|path| - 1][k] == path[k];
      r
  }

  /** The file-name part: everything after the last slash (the whole path if there is none). */
  function BaseName(path: string): (b: string)
    ensures '/' !in b
    ensures |b| <= |path| && path[|path| - |b|..] == b
  {
    match LastSlash(path)
    case None => path
    case Some(i) => path[i + 1..]
  }

  /**
    The directory as `loadModel` computes it: the prefix before the last '/',
    or, because `substr(0, npos)` keeps everything, the whole path when it
    has no '/'.
   */
  function DirectoryAsWritten(path: string): (d: string)
    ensures '/' !in path ==> d == path
    ensures '/' in path ==> d + "/" + BaseName(path) == path
  {
    match LastSlash(path)
    case None => path
    case Some(i) =>
      assert path[..i] + "/" + path[i + 1..] == path by {
        assert path == path[..i] + [path[i]] + path[i + 1..];
      }
      path[..i]
  }

  /** The file `TextureFromFile` opens: directory, a slash, then the texture path. */
  function TexturePath(directory: string, file: string): (p: string)
    ensures |p| == |directory| + 1 + |file| && p[|directory|] == '/'
    ensures p[..|directory|] == directory && p[|directory| + 1..] == file
  {
    directory + "/" + file
  }

  /**
    As written, a model path with no slash makes the model file itself the
    texture folder: "model.obj" with texture "d.png" opens "model.obj/d.png".
   */
  lemma TextureUnderModelFile(path: string, file: string)
    requires '/' !in path
    ensures TexturePath(DirectoryAsWritten(path), file) == path + "/" + file
    ensures TexturePath(DirectoryAsWritten("model.obj"), "d.png") == "model.obj/d.png"
  {
    assert '/' !in "model.obj" by {
      var s := "model.obj";
      assert forall k :: 0 <= k < |s| ==> s[k] != '/';
    }
  }

  /** The directory with the no-slash case sending textures to the current folder. */
  function Directory(path: string): (d: string)
    ensures '/' !in path ==> d == "."
    ensures '/' in path ==> d == DirectoryAsWritten(path) && d + "/" + BaseName(path) == path
  {
    match LastSlash(path)
    case None => "."
    case Some(i) => DirectoryAsWritten(path)
  }

  /**
    With the corrected directory, a texture is opened next to the model
    file: the model's file name is replaced by the texture path.
   */
  lemma TextureBesideModel(path: string, file: string)
    ensures var folder := path[..|path| - |BaseName(path)|];
      TexturePath(Directory(path), file) == (if '/' in path then folder else "./") + file
  {
    var b := BaseName(path);
    var folder := path[..|path| - |b|];
    if '/' in path {
      var d := Directory(path);
      assert d + "/" + b == path;
      assert folder == d + "/" by {
        assert path[..|path| - |b|] == (d + "/" + b)[..|d| + 1];
      }
    }
  }

  // ---------------------------------------------------------------------------
  // Pixel formats

  /** The GL enums the loader chooses between. */
  datatype GlFormat = Red | Rgb8 | Rgb | Rgba8 | Rgba

  /** Storage (`glTextureStorage2D`) and upload (`glTextureSubImage2D`) formats. */
  datatype PixelFormat = PixelFormat(storage: GlFormat, upload: GlFormat)

  datatype TextureError = DecodeFailed | UnknownComponents(n: int)

  /**
    The component-count switch of `TextureFromFile`: 1, 3 and 4 components
    are supported; for any other count the source reaches the upload with an
    uninitialised format, modelled here as an error.
   */
  function FormatFor(components: int): (r: Result<PixelFormat, TextureError>)
    ensures r.Ok? <==> components in {1, 3, 4}
    ensures components == 1 ==> r == Ok(PixelFormat(Red, Red))
    ensures components == 3 ==> r == Ok(PixelFormat(Rgb8, Rgb))
    ensures components == 4 ==> r == Ok(PixelFormat(Rgba8, Rgba))
    ensures r.Err? ==> r.error == UnknownComponents(components)
  {
    if components == 1 then Ok(PixelFormat(Red, Red))
    else if components == 3 then Ok(PixelFormat(Rgb8, Rgb))
    else if components == 4 then Ok(PixelFormat(Rgba8, Rgba))
    else Err(UnknownComponents(components))
  }

  /** The component count an upload format carries, the inverse of `FormatFor`. */
  function ComponentsOf(f: PixelFormat): int {
    match f.upload
    case Red => 1
    case Rgb8 => 3
    case Rgb => 3
    case Rgba8 => 4
    case Rgba => 4
  }

  lemma FormatRoundTrip(components: int)
    requires FormatFor(components).Ok?
    ensures ComponentsOf(FormatFor(components).value) == components
  {
  }

  /** One call of `TextureFromFile`: the file it opens and how the upload turns out. */
  datatype Upload = Upload(filename: string, outcome: Result<PixelFormat, TextureError>)

  /** The decoder: the component count of a readable image, None when `stbi_load` fails. */
  type Images = string -> Option<int>

  function TextureFromFile(path: string, directory: string, images: Images): (u: Upload)
    ensures u.filename == TexturePath(directory, path)
    ensures images(u.filename).None? ==> u.outcome == Err(DecodeFailed)
    ensures images(u.filename).Some? ==> u.outcome == FormatFor(images(u.filename).value)
  {
    var filename := TexturePath(directory, path);
    match images(filename)
    case None => Upload(filename, Err(DecodeFailed))
    case Some(n) => Upload(filename, FormatFor(n))
  }

  // ---------------------------------------------------------------------------
  // The texture cache

  /**
    `textures_loaded` and the textures created so far. A new GL texture name
    is modelled as the number of textures created before it.
   */
  datatype Loader = Loader(loaded: seq<Texture>, uploads: seq<Upload>)

  predicate NoDuplicatePaths(ts: seq<Texture>) {
    forall i, j :: 0 <= i < j < |ts| ==> ts[i].path != ts[j].path
  }

  /** The cache holds one entry per created texture, named by creation order, with no path twice. */
  predicate CacheInv(l: Loader) {
    && |l.loaded| == |l.uploads|
    && (forall i :: 0 <= i < |l.loaded| ==> l.loaded[i].id == i)
    && NoDuplicatePaths(l.loaded)
  }

  predicate HasPath(ts: seq<Texture>, path: string) {
    exists i :: 0 <= i < |ts| && ts[i].path == path
  }

  /** The `strcmp` scan of `loadMaterialTextures`: the first cached entry with this path. */
  function Find(ts: seq<Texture>, path: string): (r: Option<Texture>)
    ensures r.None? <==> !HasPath(ts, path)
    ensures r.Some? ==> r.value in ts && r.value.path == path
    decreases |ts|
  {
    if |ts| == 0 then None
    else if ts[0].path == path then Some(ts[0])
    else
      var r := Find(ts[1..], path);
      assert HasPath(ts[1..], path) ==> HasPath(ts, path) by {
        if HasPath(ts[1..], path) {
          var i :| 0 <= i < |ts[1..]| && ts[1..][i].path == path;
          assert ts[i + 1].path == path;
        }
      }
      assert HasPath(ts, path) ==> HasPath(ts[1..], path) by {
        if HasPath(ts, path) {
          var i :| 0 <= i < |ts| && ts[i].path == path;
          assert i > 0 && ts[1..][i - 1].path == path;
        }
      }
      r
  }

  /** Appending entries does not change where an already cached path is found. */
  lemma {:induction false} FindExtend(ts: seq<Texture>, more: seq<Texture>, path: string)
    requires Find(ts, path).Some?
    ensures Find(ts + more, path) == Find(ts, path)
    decreases |ts|
  {
    if ts[0].path != path {
      assert (ts + more)[1..] == ts[1..] + more;
      FindExtend(ts[1..], more, path);
    }
  }

  /** One requested path: reuse the cached entry, or create, record and cache a new one. */
  function LoadOne(l: Loader, directory: string, path: string, typeName: string, images: Images): (r: (Loader, Texture))
    requires CacheInv(l)
    ensures CacheInv(r.0)
    ensures r.1.path == path && r.1 in r.0.loaded
    ensures Find(l.loaded, path).Some? ==> r == (l, Find(l.loaded, path).value)
    ensures Find(l.loaded, path).None? ==>
              r.1 == Texture(|l.uploads|, typeName, path)
              && r.0 == Loader(l.loaded + [r.1], l.uploads + [TextureFromFile(path, directory, images)])
  {
    match Find(l.loaded, path)
    case Some(t) => (l, t)
    case None =>
      var t := Texture(|l.uploads|, typeName, path);
      (Loader(l.loaded + [t], l.uploads + [TextureFromFile(path, directory, images)]), t)
  }

  /**
    What serving request `path` with texture `t` means, given the cache `l`
    before the call and `l'` after it: `t` carries the path and is cached;
    a path already cached is served by the stored entry (its id and its
    original kind), a new one gets `typeName`.
   */
  predicate ServesAt(l: Loader, l': Loader, path: string, typeName: string, t: Texture) {
    && t.path == path
    && t in l'.loaded
    && (Find(l.loaded, path).Some? ==> t == Find(l.loaded, path).value)
    && (Find(l.loaded, path).None? ==> t.kind == typeName)
  }

  predicate Serves(l: Loader, l': Loader, paths: seq<string>, typeName: string, out: seq<Texture>) {
    |out| == |paths| && forall i :: 0 <= i < |paths| ==> ServesAt(l, l', paths[i], typeName, out[i])
  }

  /**
    Every entry `l'` adds beyond `l` is for a requested path that `l` did not
    hold, and its upload reads that path under `directory`.
   */
  predicate AddsOnly(l: Loader, l': Loader, directory: string, paths: seq<string>, images: Images) {
    && |l'.loaded| == |l'.uploads|
    && forall k :: |l.loaded| <= k < |l'.loaded| ==>
         && l'.loaded[k].path in paths
         && !HasPath(l.loaded, l'.loaded[k].path)
         && l'.uploads[k] == TextureFromFile(l'.loaded[k].path, directory, images)
  }

  /** A path held by a prefix is held by the whole list. */
  lemma HasPathPrefix(a: seq<Texture>, b: seq<Texture>, path: string)
    requires a <= b
    ensures HasPath(a, path) ==> HasPath(b, path)
  {
    if HasPath(a, path) {
      var i :| 0 <= i < |a| && a[i].path == path;
      assert b[i] == a[i];
    }
  }

  /** What the first request adds, followed by what the rest adds, is what the whole list adds. */
  lemma AddsOnlyCons(l: Loader, l1: Loader, l2: Loader, directory: string, paths: seq<string>, images: Images, t: Texture)
    requires |paths| > 0 && |l.loaded| == |l.uploads|
    requires l1.loaded <= l2.loaded && l1.uploads <= l2.uploads
    requires l1 == l || (t.path == paths[0] && !HasPath(l.loaded, paths[0])
                         && l1 == Loader(l.loaded + [t], l.uploads + [TextureFromFile(paths[0], directory, images)]))
    requires AddsOnly(l1, l2, directory, paths[1..], images)
    ensures AddsOnly(l, l2, directory, paths, images)
  {
    forall k | |l.loaded| <= k < |l2.loaded|
      ensures l2.loaded[k].path in paths && !HasPath(l.loaded, l2.loaded[k].path)
      ensures l2.uploads[k] == TextureFromFile(l2.loaded[k].path, directory, images)
    {
      if k < |l1.loaded| {
        assert k == |l.loaded| && l2.loaded[k] == l1.loaded[k] && l2.uploads[k] == l1.uploads[k];
      } else {
        var q := l2.loaded[k].path;
        assert q in paths[1..];
        HasPathPrefix(l.loaded, l1.loaded, q);
      }
    }
  }

  /**
    `loadMaterialTextures`: one texture per requested path, in order, each
    served as `ServesAt` says. The cache only grows and never holds a path
    twice; only requested, uncached paths are added, each read from
    `directory + '/' + path`; when every path is already cached nothing is
    created.
   */
  function LoadMaterialTextures(l: Loader, directory: string, paths: seq<string>, typeName: string,
                                images: Images): (r: (Loader, seq<Texture>))
    requires CacheInv(l)
    ensures CacheInv(r.0)
    ensures l.loaded <= r.0.loaded && l.uploads <= r.0.uploads
    ensures Serves(l, r.0, paths, typeName, r.1)
    ensures AddsOnly(l, r.0, directory, paths, images)
    ensures (forall i :: 0 <= i < |paths| ==> HasPath(l.loaded, paths[i])) ==> r.0 == l
    decreases |paths|
  {
    if |paths| == 0 then (l, [])
    else
      var first := LoadOne(l, directory, paths[0], typeName, images);
      var rest := LoadMaterialTextures(first.0, directory, paths[1..], typeName, images);
      ServesCons(l, first.0, rest.0, paths, typeName, first.1, rest.1);
      AddsOnlyCons(l, first.0, rest.0, directory, paths, images, first.1);
      assert (forall i :: 0 <= i < |paths| ==> HasPath(l.loaded, paths[i])) ==>
               first.0 == l && (forall i :: 0 <= i < |paths[1..]| ==> HasPath(l.loaded, paths[1..][i]));
      (rest.0, [first.1] + rest.1)
  }

  /** Serving the first request and then the rest serves the whole list. */
  lemma ServesCons(l: Loader, l1: Loader, l2: Loader, paths: seq<string>, typeName: string,
                   t: Texture, ts: seq<Texture>)
    requires |paths| > 0 && CacheInv(l)
    requires Find(l.loaded, paths[0]).Some? ==> l1 == l && t == Find(l.loaded, paths[0]).value
    requires Find(l.loaded, paths[0]).None? ==>
               t == Texture(|l.uploads|, typeName, paths[0]) && l1.loaded == l.loaded + [t]
    requires t.path == paths[0] && t in l1.loaded
    requires l1.loaded <= l2.loaded
    requires Serves(l1, l2, paths[1..], typeName, ts)
    ensures Serves(l, l2, paths, typeName, [t] + ts)
  {
    var out := [t] + ts;
    forall i | 0 <= i < |paths|
      ensures ServesAt(l, l2, paths[i], typeName, out[i])
    {
      if i == 0 {
        assert t in l2.loaded by {
          var j :| 0 <= j < |l1.loaded| && l1.loaded[j] == t;
          assert l2.loaded[j] == t;
        }
      } else {
        var p := paths[i];
        assert p == paths[1..][i - 1] && out[i] == ts[i - 1];
        assert ServesAt(l1, l2, p, typeName, ts[i - 1]);
        if Find(l.loaded, p).Some? {
          if Find(l.loaded, paths[0]).None? {
            FindExtend(l.loaded, [t], p);
          }
        } else if Find(l1.loaded, p).Some? {
          assert Find(l.loaded, paths[0]).None?;
          FindNewEntry(l.loaded, t, p);
        }
      }
    }
  }

  /** A path absent from `ts` is found in `ts + [t]` only as `t`. */
  lemma {:induction false} FindNewEntry(ts: seq<Texture>, t: Texture, path: string)
    requires Find(ts, path).None? && Find(ts + [t], path).Some?
    ensures Find(ts + [t], path).value == t
    decreases |ts|
  {
    if |ts| > 0 {
      assert (ts + [t])[1..] == ts[1..] + [t];
      assert ts[0].path != path;
      FindNewEntry(ts[1..], t, path);
    }
  }

  /** The paths of the served textures are the requested paths. */
  lemma ServesPaths(l: Loader, l': Loader, paths: seq<string>, typeName: string, out: seq<Texture>)
    requires Serves(l, l', paths, typeName, out)
    ensures PathsOf(out) == paths
  {
  }

  // ---------------------------------------------------------------------------
  // Meshes

  /** `processMesh`'s per-vertex copy. */
  function ConvertVertex(m: AiMesh, i: nat): (v: Vertex)
    requires MeshValid(m) && i < |m.vertices|
    ensures v.position == m.vertices[i]
    ensures m.normals.Some? <==> v.normal.Some?
    ensures m.normals.Some? ==> v.normal == Some(m.normals.value[i])
    ensures m.texCoords.None? ==> v.texCoords == Vec2(0.0, 0.0) && v.tangent.None? && v.bitangent.None?
    ensures m.texCoords.Some? ==>
              v.texCoords == Vec2(m.texCoords.value[i].x, m.texCoords.value[i].y)
              && v.tangent == Some(m.tangents[i]) && v.bitangent == Some(m.bitangents[i])
  {
    var normal := if m.normals.Some? then Some(m.normals.value[i]) else None;
    match m.texCoords
    case Some(tc) =>
      Vertex(m.vertices[i], normal, Vec2(tc[i].x, tc[i].y), Some(m.tangents[i]), Some(m.bitangents[i]))
    case None =>
      Vertex(m.vertices[i], normal, Vec2(0.0, 0.0), None, None)
  }

  function ConvertVertices(m: AiMesh): (vs: seq<Vertex>)
    requires MeshValid(m)
    ensures |vs| == |m.vertices|
    ensures forall i :: 0 <= i < |vs| ==> vs[i] == ConvertVertex(m, i)
  {
    seq(|m.vertices|, i requires 0 <= i < |m.vertices| => ConvertVertex(m, i))
  }

  /** The reference meaning of the index loop: the faces' indices concatenated in face order. */
  function Concat(faces: seq<seq<nat>>): seq<nat>
    decreases |faces|
  {
    if |faces| == 0 then [] else Concat(faces[..|faces| - 1]) + faces[|faces| - 1]
  }

  function TotalIndices(faces: seq<seq<nat>>): nat
    decreases |faces|
  {
    if |faces| == 0 then 0 else TotalIndices(faces[..|faces| - 1]) + |faces[|faces| - 1]|
  }

  lemma {:induction false} ConcatLength(faces: seq<seq<nat>>)
    ensures |Concat(faces)| == TotalIndices(faces)
    decreases |faces|
  {
    if |faces| > 0 {
      ConcatLength(faces[..|faces| - 1]);
    }
  }

  /** The nested index loop of `processMesh`, face by face and index by index. */
  method CollectIndices(faces: seq<seq<nat>>) returns (indices: seq<nat>)
    ensures indices == Concat(faces)
    ensures |indices| == TotalIndices(faces)
  {
    indices := [];
    var i := 0;
    while i < |faces|
      invariant 0 <= i <= |faces|
      invariant indices == Concat(faces[..i])
    {
      var face := faces[i];
      var j := 0;
      while j < |face|
        invariant 0 <= j <= |face|
        invariant indices == Concat(faces[..i]) + face[..j]
      {
        indices := indices + [face[j]];
        j := j + 1;
      }
      assert face[..j] == face;
      assert faces[..i + 1][..i] == faces[..i];
      i := i + 1;
    }
    assert faces[..i] == faces;
    ConcatLength(faces);
  }

  /** The texture paths a material asks for, in the loader's order. */
  function MaterialPaths(mat: AiMaterial): seq<string> {
    TexturePaths(mat, AiDiffuse) + TexturePaths(mat, AiSpecular)
      + TexturePaths(mat, AiHeight) + TexturePaths(mat, AiAmbient)
  }

  function PathsOf(ts: seq<Texture>): (ps: seq<string>)
    ensures |ps| == |ts|
    ensures forall i :: 0 <= i < |ts| ==> ps[i] == ts[i].path
  {
    seq(|ts|, i requires 0 <= i < |ts| => ts[i].path)
  }

  lemma PathsOfAppend(a: seq<Texture>, b: seq<Texture>)
    ensures PathsOf(a + b) == PathsOf(a) + PathsOf(b)
  {
  }

  const DefaultShininess: real := 16.0

  /** The mesh's geometry and texture paths agree with the imported mesh. */
  predicate Matches(mesh: Mesh, scene: AiScene, m: AiMesh)
    requires MeshValid(m) && m.materialIndex < |scene.materials|
  {
    && mesh.vertices == ConvertVertices(m)
    && mesh.indices == Concat(m.faces)
    && PathsOf(mesh.textures) == MaterialPaths(scene.materials[m.materialIndex])
    && mesh.matShininess == scene.materials[m.materialIndex].shininess.GetOr(DefaultShininess)
  }

  /**
    `processMesh`: one vertex per input vertex, the concatenated face
    indices, the diffuse, specular, normal (HEIGHT slot) and height (AMBIENT
    slot) textures in that order, and shininess 16 when the lookup fails.
   */
  function ProcessMesh(l: Loader, directory: string, scene: AiScene, m: AiMesh, images: Images): (r: (Loader, Mesh))
    requires CacheInv(l) && MeshValid(m) && m.materialIndex < |scene.materials|
    ensures CacheInv(r.0) && l.loaded <= r.0.loaded && l.uploads <= r.0.uploads
    ensures Matches(r.1, scene, m)
    ensures |r.1.vertices| == |m.vertices| && |r.1.indices| == TotalIndices(m.faces)
    ensures var mat := scene.materials[m.materialIndex];
      var d := LoadMaterialTextures(l, directory, TexturePaths(mat, AiDiffuse), Diffuse, images);
      var sp := LoadMaterialTextures(d.0, directory, TexturePaths(mat, AiSpecular), Specular, images);
      var n := LoadMaterialTextures(sp.0, directory, TexturePaths(mat, AiHeight), Normal, images);
      var h := LoadMaterialTextures(n.0, directory, TexturePaths(mat, AiAmbient), Height, images);
      && r.0 == h.0 && r.1.textures == d.1 + sp.1 + n.1 + h.1
      && Serves(l, d.0, TexturePaths(mat, AiDiffuse), Diffuse, d.1)
      && Serves(d.0, sp.0, TexturePaths(mat, AiSpecular), Specular, sp.1)
      && Serves(sp.0, n.0, TexturePaths(mat, AiHeight), Normal, n.1)
      && Serves(n.0, h.0, TexturePaths(mat, AiAmbient), Height, h.1)
  {
    var mat := scene.materials[m.materialIndex];
    var d := LoadMaterialTextures(l, directory, TexturePaths(mat, AiDiffuse), Diffuse, images);
    var sp := LoadMaterialTextures(d.0, directory, TexturePaths(mat, AiSpecular), Specular, images);
    var n := LoadMaterialTextures(sp.0, directory, TexturePaths(mat, AiHeight), Normal, images);
    var h := LoadMaterialTextures(n.0, directory, TexturePaths(mat, AiAmbient), Height, images);
    var textures := d.1 + sp.1 + n.1 + h.1;
    ServesPaths(l, d.0, TexturePaths(mat, AiDiffuse), Diffuse, d.1);
    ServesPaths(d.0, sp.0, TexturePaths(mat, AiSpecular), Specular, sp.1);
    ServesPaths(sp.0, n.0, TexturePaths(mat, AiHeight), Normal, n.1);
    ServesPaths(n.0, h.0, TexturePaths(mat, AiAmbient), Height, h.1);
    PathsOfAppend(d.1, sp.1);
    PathsOfAppend(d.1 + sp.1, n.1);
    PathsOfAppend(d.1 + sp.1 + n.1, h.1);
    ConcatLength(m.faces);
    (h.0, MakeMesh(ConvertVertices(m), Concat(m.faces), textures, mat.shininess.GetOr(DefaultShininess)))
  }

  // ---------------------------------------------------------------------------
  // The node tree

  /** The mesh indices of a tree in pre-order: own meshes first, then each child subtree. */
  function Flatten(node: AiNode): seq<nat>
    decreases node
  {
    node.meshes + FlattenAll(node.children)
  }

  function FlattenAll(nodes: seq<AiNode>): seq<nat>
    decreases nodes
  {
    if |nodes| == 0 then [] else Flatten(nodes[0]) + FlattenAll(nodes[1..])
  }

  /** The sum of `mNumMeshes` over a tree. */
  function MeshCount(node: AiNode): nat
    decreases node
  {
    |node.meshes| + MeshCountAll(node.children)
  }

  function MeshCountAll(nodes: seq<AiNode>): nat
    decreases nodes
  {
    if |nodes| == 0 then 0 else MeshCount(nodes[0]) + MeshCountAll(nodes[1..])
  }

  lemma {:induction false} FlattenCount(node: AiNode)
    ensures |Flatten(node)| == MeshCount(node)
    decreases node
  {
    FlattenAllCount(node.children);
  }

  lemma {:induction false} FlattenAllCount(nodes: seq<AiNode>)
    ensures |FlattenAll(nodes)| == MeshCountAll(nodes)
    decreases nodes
  {
    if |nodes| > 0 {
      FlattenCount(nodes[0]);
      FlattenAllCount(nodes[1..]);
    }
  }

  /** Every mesh of `ms` matches the imported mesh at the same position of `order`. */
  predicate MatchesAll(ms: seq<Mesh>, scene: AiScene, order: seq<nat>)
    requires SceneValid(scene)
  {
    && |ms| == |order|
    && forall k :: 0 <= k < |ms| ==> order[k] < |scene.meshes| && Matches(ms[k], scene, scene.meshes[order[k]])
  }

  lemma MatchesAllAppend(a: seq<Mesh>, b: seq<Mesh>, scene: AiScene, oa: seq<nat>, ob: seq<nat>)
    requires SceneValid(scene)
    requires MatchesAll(a, scene, oa) && MatchesAll(b, scene, ob)
    ensures MatchesAll(a + b, scene, oa + ob)
  {
    forall k | 0 <= k < |a + b|
      ensures Matches((a + b)[k], scene, scene.meshes[(oa + ob)[k]])
    {
      if k < |a| {
        assert (a + b)[k] == a[k] && (oa + ob)[k] == oa[k];
      } else {
        assert (a + b)[k] == b[k - |a|] && (oa + ob)[k] == ob[k - |a|];
      }
    }
  }

  lemma MatchesAllSingle(mesh: Mesh, scene: AiScene, i: nat)
    requires SceneValid(scene) && i < |scene.meshes|
    requires Matches(mesh, scene, scene.meshes[i])
    ensures MatchesAll([mesh], scene, [i])
  {
  }

  /** The first loop of `processNode`: the node's own meshes, in index order. */
  function ProcessMeshes(l: Loader, directory: string, scene: AiScene, indices: seq<nat>, images: Images): (r: (Loader, seq<Mesh>))
    requires CacheInv(l) && SceneValid(scene)
    requires forall k :: 0 <= k < |indices| ==> indices[k] < |scene.meshes|
    ensures CacheInv(r.0) && l.loaded <= r.0.loaded && l.uploads <= r.0.uploads
    ensures MatchesAll(r.1, scene, indices)
    decreases |indices|
  {
    if |indices| == 0 then (l, [])
    else
      var first := ProcessMesh(l, directory, scene, scene.meshes[indices[0]], images);
      var rest := ProcessMeshes(first.0, directory, scene, indices[1..], images);
      MeshesStep(first.1, rest.1, scene, indices);
      (rest.0, [first.1] + rest.1)
  }

  /** One mesh built from `indices[0]` followed by the meshes of the rest match all of `indices`. */
  lemma MeshesStep(mesh: Mesh, rest: seq<Mesh>, scene: AiScene, indices: seq<nat>)
    requires SceneValid(scene) && |indices| > 0 && indices[0] < |scene.meshes|
    requires Matches(mesh, scene, scene.meshes[indices[0]])
    requires MatchesAll(rest, scene, indices[1..])
    ensures MatchesAll([mesh] + rest, scene, indices)
  {
    MatchesAllSingle(mesh, scene, indices[0]);
    MatchesAllAppend([mesh], rest, scene, [indices[0]], indices[1..]);
    assert [indices[0]] + indices[1..] == indices;
  }

  /**
    `processNode`: the meshes of the tree in pre-order. Mesh k of the result
    is built from scene mesh `Flatten(node)[k]`, so the count appended is
    the sum of `mNumMeshes` over the tree.
   */
  function ProcessNode(l: Loader, directory: string, scene: AiScene, node: AiNode, images: Images): (r: (Loader, seq<Mesh>))
    requires CacheInv(l) && SceneValid(scene) && NodeValid(node, |scene.meshes|)
    ensures CacheInv(r.0) && l.loaded <= r.0.loaded && l.uploads <= r.0.uploads
    ensures MatchesAll(r.1, scene, Flatten(node))
    decreases node
  {
    var (l1, own) := ProcessMeshes(l, directory, scene, node.meshes, images);
    var (l2, sub) := ProcessNodes(l1, directory, scene, node.children, images);
    MatchesAllAppend(own, sub, scene, node.meshes, FlattenAll(node.children));
    (l2, own + sub)
  }

  /** The second loop of `processNode`: each child subtree in order. */
  function ProcessNodes(l: Loader, directory: string, scene: AiScene, nodes: seq<AiNode>, images: Images): (r: (Loader, seq<Mesh>))
    requires CacheInv(l) && SceneValid(scene) && NodesValid(nodes, |scene.meshes|)
    ensures CacheInv(r.0) && l.loaded <= r.0.loaded && l.uploads <= r.0.uploads
    ensures MatchesAll(r.1, scene, FlattenAll(nodes))
    decreases nodes
  {
    if |nodes| == 0 then (l, [])
    else
      var (l1, first) := ProcessNode(l, directory, scene, nodes[0], images);
      var (l2, rest) := ProcessNodes(l1, directory, scene, nodes[1..], images);
      MatchesAllAppend(first, rest, scene, Flatten(nodes[0]), FlattenAll(nodes[1..]));
      (l2, first + rest)
  }

  /** The number of meshes `processNode` appends is the tree's mesh count. */
  lemma ProcessNodeCount(l: Loader, directory: string, scene: AiScene, node: AiNode, images: Images)
    requires CacheInv(l) && SceneValid(scene) && NodeValid(node, |scene.meshes|)
    ensures |ProcessNode(l, directory, scene, node, images).1| == MeshCount(node)
  {
    FlattenCount(node);
  }

  // ---------------------------------------------------------------------------
  // The model

  datatype ModelData = ModelData(
    texturesLoaded: seq<Texture>,
    meshes: seq<Mesh>,
    directory: string,
    gammaCorrection: bool,
    uploads: seq<Upload>)

  /** The error test of `loadModel`: no scene, an incomplete one, or one without a root. */
  predicate Usable(scene: Option<AiScene>) {
    scene.Some? && !scene.value.incomplete && scene.value.root.Some?
  }

  predicate ModelInv(m: ModelData) {
    CacheInv(Loader(m.texturesLoaded, m.uploads))
  }

  /**
    `loadModel`: an unusable import returns without touching the model;
    otherwise the directory is set as written (the whole path when it has no
    slash) and the tree's meshes are appended in pre-order.
   */
  function LoadModel(m: ModelData, path: string, scene: Option<AiScene>, images: Images): (r: ModelData)
    requires ModelInv(m)
    requires Usable(scene) ==> SceneValid(scene.value) && NodeValid(scene.value.root.value, |scene.value.meshes|)
    ensures ModelInv(r)
    ensures !Usable(scene) ==> r == m
    ensures Usable(scene) ==>
              && |r.meshes| >= |m.meshes|
              && r.directory == DirectoryAsWritten(path)
              && r.gammaCorrection == m.gammaCorrection
              && m.texturesLoaded <= r.texturesLoaded
              && r.meshes[..|m.meshes|] == m.meshes
              && MatchesAll(r.meshes[|m.meshes|..], scene.value, Flatten(scene.value.root.value))
  {
    if !Usable(scene) then m
    else
      var s := scene.value;
      var directory := DirectoryAsWritten(path);
      var (l, ms) := ProcessNode(Loader(m.texturesLoaded, m.uploads), directory, s, s.root.value, images);
      assert (m.meshes + ms)[..|m.meshes|] == m.meshes;
      assert (m.meshes + ms)[|m.meshes|..] == ms;
      m.(directory := directory, meshes := m.meshes + ms, texturesLoaded := l.loaded, uploads := l.uploads)
  }

  /** The constructor: a fresh model, then `loadModel`. */
  function NewModel(path: string, gamma: bool, scene: Option<AiScene>, images: Images): (r: ModelData)
    requires Usable(scene) ==> SceneValid(scene.value) && NodeValid(scene.value.root.value, |scene.value.meshes|)
    ensures r.gammaCorrection == gamma && ModelInv(r)
    ensures !Usable(scene) ==> r.meshes == [] && r.directory == "" && r.texturesLoaded == []
    ensures Usable(scene) ==> r.directory == DirectoryAsWritten(path)
    ensures Usable(scene) ==> MatchesAll(r.meshes, scene.value, Flatten(scene.value.root.value))
  {
    var r := LoadModel(ModelData([], [], "", gamma, []), path, scene, images);
    assert Usable(scene) ==> r.meshes[0..] == r.meshes;
    r
  }

  /** `Model::Draw`: each mesh drawn in order. */
  method DrawModel(m: ModelData) returns (calls: seq<DrawCall>)
    ensures |calls| == |m.meshes|
    ensures forall i :: 0 <= i < |calls| ==> calls[i] == DrawSpec(m.meshes[i])
  {
    calls := [];
    var i := 0;
    while i < |m.meshes|
      invariant 0 <= i <= |m.meshes|
      invariant |calls| == i
      invariant forall k :: 0 <= k < i ==> calls[k] == DrawSpec(m.meshes[k])
    {
      var d := Draw(m.meshes[i]);
      calls := calls + [d];
      i := i + 1;
    }
  }
}
