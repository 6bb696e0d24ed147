# Jealno camera, mesh and model loader — a Dafny model

This project models the sequential logic of three parts of the Jealno
OpenGL demo, with the graphics, importer and windowing calls abstracted
away, and proves the properties those parts promise.

- **Camera** (`camera.dfy`, module `Camera`; vector arithmetic in
  `glm.dfy`, module `Glm`). This is a class with a position, yaw and
  pitch in degrees, a zoom (the field of view) and a front/right/up basis
  derived from the angles. It has three input handlers:
  - the keyboard moves the position by a fixed speed along front, right
    or up;
  - mouse motion adds the scaled offsets to yaw and pitch, clamps pitch
    to [-89, 89] and recomputes the basis;
  - the wheel subtracts its delta from the zoom and clamps it to [1, 45].

  The trigonometry and the inverse square root are parameters of the
  camera (a `MathLib` value), so every property holds whatever they
  compute. That includes the pairwise orthogonality of the basis, which
  follows from the cross products alone.
- **Mesh** (`mesh.dfy`, module `Mesh`). The constructor keeps its three
  lists. `Draw` issues calls in this order:
  - it makes the shader current;
  - for each texture i it selects unit i, sets the sampler uniform
    `material.<type><number>` to i, and binds the texture. Diffuse and
    specular textures are numbered by two independent counters, and any
    other type gets no number;
  - it draws as many indices as the mesh has.

  The calls are returned as a list of `GlCall` values rather than
  performed. The decimal spelling of the counters (`std::to_string`) is
  in `strings.dfy`, module `Strings`.
- **Model** (`model.dfy`, module `Model`). The imported scene is an input
  value: a tree of nodes holding indices into the scene's mesh array.
  - The constructor records the directory: the path before its last
    `/`, or the whole path when there is none (`find_last_of` in
    `strings.dfy`).
  - It then walks the tree pre-order. Each node's own meshes are
    appended, in order, before its children are visited.
  - Each mesh copies its vertices with their normals and concatenates
    its faces' index lists.
  - `Draw` draws every mesh once, in insertion order.

Facts about the code that the model follows:
- The uniform names are `material.texture_diffuseN` and
  `material.texture_specularN` (src/Mesh.cpp:67-73).
- `Mesh::Draw` takes no tint colour and writes no colour uniform
  (src/Mesh.cpp:60).
- The model loader's texture cache `mLoadedTextures` (src/Model.hpp:31)
  is never read or written in src/Model.cpp, and the loader attaches no
  textures to the meshes it builds (src/Model.cpp:69).

## Model

| member | source | states |
|---|---|---|
| Strings.Decimal | src/Mesh.cpp:68-71 | the counter's spelling is a non-empty string of decimal digits with no leading zero |
| Strings.ParseDecimalOfDecimal | src/Mesh.cpp:68-71 | reading the decimal digits back gives the counter: the spelling is invertible |
| Strings.DecimalInjective | src/Mesh.cpp:68-71 | distinct counter values are spelled differently |
| Strings.LastIndexOf | src/Model.cpp:30 | None exactly when the character does not occur; otherwise an index holding the character with no occurrence after it |
| Camera.BasisOrthogonal | src/Camera.cpp:85-94 | whatever the trigonometry, front, right and up are pairwise orthogonal |
| Camera.ClampPitch | src/Camera.cpp:69-72 | the result is in [-89, 89]; it equals the input exactly when the input is in range; otherwise it saturates at the bound that was crossed |
| Camera.Scrolled | src/Camera.cpp:78-82 | the zoom is in [1, 45]; it is old zoom minus delta exactly when that is in range; otherwise it saturates at the bound that was crossed |
| Camera.ScrolledTimesDown | src/Camera.cpp:77-83 | n wheel steps of a non-negative delta from an in-range zoom lower it by n times the delta, stopping at 1 |
| Camera.ScrollToMin | src/Camera.cpp:79-80 | scrolling down by at least the distance to 1 leaves the zoom at 1 |
| Camera.ScrollFromDefault | src/Camera.cpp:77-83 | from the default zoom 45, ten steps of 1 give 35 and fifty more give 1 |
| Camera.MoveThenOpposite | src/Camera.cpp:41-58 | forward then backward, left then right, up then down (and each reversed) restore the position exactly |
| Camera.StepAlong | src/Camera.cpp:39-60 | one keyboard step adds plus or minus one speed unit along exactly one of front, right and up |
| Camera.MovedAllByCounts | src/Camera.cpp:39-60 | the position after any sequence of keyboard steps depends only on the net count of steps along each axis, not on their order |
| Camera.Camera.constructor | src/Camera.cpp:23-33 | position, world up, yaw and pitch are the arguments, zoom is 45, the basis is the one the angles give, and the camera is valid; pitch is not clamped |
| Camera.Camera.Default | src/Camera.hpp:35-44 | with the default arguments: position at the origin, world up (0, 1, 0), yaw -90, pitch 0, zoom 45 |
| Camera.Camera.ViewMatrix | src/Camera.cpp:35-37 | the view looks from the position towards position + front with up as vertical; it depends only on those three fields |
| Camera.Camera.ProcessKeyboard | src/Camera.cpp:39-60 | the position moves by one step in the direction given; angles, zoom, world up and basis are unchanged, so a valid camera stays valid |
| Camera.Camera.ProcessMouseMovement | src/Camera.cpp:62-75 | yaw grows by x times 0.1 with no wrapping; pitch is the clamped old pitch plus y times 0.1, exactly that sum when it is in range; the basis follows the new angles; position, zoom and world up are unchanged |
| Camera.Camera.ProcessMouseScroll | src/Camera.cpp:77-83 | the zoom is the clamped old zoom minus the delta, exactly that difference when it is in range; position, angles and basis are unchanged |
| Camera.Camera.UpdateCameraVectors | src/Camera.cpp:85-94 | the basis becomes the one derived from yaw, pitch and world up; nothing else changes |
| Camera.Camera.Zoom | src/Camera.cpp:96-98 | the zoom reported by a valid camera is in [1, 45] |
| Camera.StepAndReturn | src/Camera.cpp:41-58 | a keyboard step followed by the opposite step restores position, basis and view |
| Camera.LookAndReturn | src/Camera.cpp:62-75 | a mouse motion that stays within the pitch limits is undone by the opposite motion: angles, basis and view are restored |
| Mesh.Mesh.constructor | src/Mesh.cpp:21-28 | the mesh stores the vertex, index and texture lists unchanged |
| Mesh.Mesh.Draw | src/Mesh.cpp:60-82 | the calls issued are exactly DrawCalls of the mesh's textures and index count, the closed form whose properties the lemmas below prove (in the proof, a loop invariant ties the two running counters to the numbers of diffuse and specular textures seen so far) |
| Mesh.DrawCallsAt | src/Mesh.cpp:60-82 | the shader is made current first; texture i selects unit i, sets its uniform to i and binds its id; the last call draws all the indices |
| Mesh.TextureCallsAt | src/Mesh.cpp:63-75 | iteration i of the loop makes its three calls at positions 3i to 3i+2, in that order |
| Mesh.TextureUniformWrites | src/Mesh.cpp:63-75 | the loop writes exactly one uniform per texture, in texture order, the i-th write being name i with value i |
| Mesh.OneUniformPerTexture | src/Mesh.cpp:63-75 | the whole of Draw writes exactly one uniform per texture in texture order, texture i's uniform getting i |
| Mesh.UniformNameOfPrefix | src/Mesh.cpp:63-73 | a texture's uniform name depends only on the textures up to and including it |
| Mesh.KindNumbering | src/Mesh.cpp:68-73 | the k-th diffuse texture is named material.texture_diffuse followed by k in decimal, counting from 0, and likewise for specular, however they are interleaved |
| Mesh.OtherKindUnnumbered | src/Mesh.cpp:66-73 | a texture of any other type is named material. followed by its type alone and advances neither counter |
| Mesh.CountKindMonotone | src/Mesh.cpp:68-71 | a counter never decreases along the list |
| Mesh.SameKindNamesDiffer | src/Mesh.cpp:68-73 | two textures of the same numbered type get different names |
| Mesh.DistinctUniformNames | src/Mesh.cpp:63-75 | when every texture is diffuse or specular, no two textures share a uniform, so no unit assignment is overwritten |
| Mesh.OneDrawPerMesh | src/Mesh.cpp:80 | Draw issues exactly one indexed draw, whose count is the length of the index list |
| Model.FlattenLength | src/Model.cpp:45-51 | the pre-order flattening has one entry per node mesh reference: the sum of the nodes' mesh counts |
| Model.FlattenInBounds | src/Model.cpp:45-51 | when the tree's mesh indices are in bounds, so is every entry of the flattening |
| Model.FaceIndicesAt | src/Model.cpp:63-67 | index j of face k sits in the flat list right after the indices of the faces before k |
| Model.FaceIndicesLength | src/Model.cpp:63-67 | the flat index list is as long as the sum of the faces' index counts |
| Model.LoadedAppend | src/Model.cpp:47 | meshes built from two lists of scene meshes, appended, are those built from the appended lists |
| Model.Directory | src/Model.cpp:30 | without a slash the directory is the whole path; otherwise it is the prefix before a slash with no slash after it, which is the last one |
| Model.DirectoryOfJoin | src/Model.cpp:30 | the directory of dir + "/" + a file name without a slash is dir |
| Model.DrawAllOncePerMesh | src/Model.cpp:40-43 | the model's calls hold one indexed draw per mesh, in insertion order, each with that mesh's index count |
| Model.Model.constructor | src/Model.cpp:24-33 | the directory is Directory(path); the meshes are those built from the scene's meshes in pre-order; their number is the sum of the nodes' mesh counts; all are new objects |
| Model.Model.Draw | src/Model.cpp:40-43 | the calls are each mesh's draw calls, the meshes taken in insertion order |
| Model.Model.ProcessNode | src/Model.cpp:45-51 | the meshes already loaded keep their positions and values; after them come the node's own meshes in index order, then each child's subtree in child order; all are new objects |
| Model.Model.ProcessMesh | src/Model.cpp:53-70 | one vertex per scene vertex (position i with normal i and zero texture coordinates); the indices are the faces' index lists concatenated in order; no textures |

## Left out

- Graphics calls: buffer and vertex-array creation, upload, attribute
  setup, deletion, and the vertex-array binds around the draw
  (src/Mesh.cpp:30-57, 79, 81) are not modelled. `glActiveTexture(0)`
  after the loop (src/Mesh.cpp:77) is also left out. They are foreign
  calls that hold no logic.
- The shader program is not modelled. `use` and `setValue` appear only
  as the `UseProgram` and `SetInt` calls that Draw records.
- Floating point: positions, angles and zoom are reals. Single-precision
  rounding is not modelled, and neither are NaN or infinite offsets. A
  NaN mouse offset leaves the pitch NaN, since both tests at
  src/Camera.cpp:69-72 fail, and a NaN wheel delta leaves the zoom NaN
  (src/Camera.cpp:78-82). The pitch and zoom ranges therefore hold over
  the reals only.
- `cosf`, `sinf`, `glm::radians` and `glm::inversesqrt` are not
  computed. They are abstract functions supplied with the camera.
- `glm::lookAt` is not computed. The view is the triple of its
  arguments. Matrix contents are left out.
- Camera.Camera.Default: the header's default arguments stand for the
  constructor with all arguments omitted. Calls that omit only some
  arguments are covered by the general constructor.
- The importer is not modelled (`ReadFile` and the validity assert,
  src/Model.cpp:25-28). The scene is a well-formed input whose mesh
  indices are in bounds and whose meshes have a normal per vertex. The
  source checks neither.
- Model.Model.Draw: the tint colour that `Model::draw` passes is
  dropped, because the modelled `Mesh::Draw` (src/Mesh.cpp:60) takes
  none.
- The texture deduplication cache is not modelled, because the model
  loader never uses it.
- The material textures stay empty, because the loader does not read
  them either.
- Model.Model.ProcessMesh: texture coordinates are zero, as a `Vertex`
  built from two members leaves them value-initialised.
- Mesh and model destruction are not modelled. The memory they release
  has no observable logic.
- Unsigned widths are not modelled. Counters, unit numbers and indices
  are unbounded naturals. The `(int)` casts of `i` and of the index
  count are taken as exact, which holds below 2^31 entries.
- The remaining source files hold only GL, Qt and window plumbing:
  shader compilation, texture upload, the widget, the main window and
  `main`. They are not part of this model.
- Camera.Camera.Zoom, Position, Front, Yaw, Pitch: the accessors return
  their fields. Only Zoom carries a contract, namely its range.
