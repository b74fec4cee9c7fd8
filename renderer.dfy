/**
 * The WebGL 1 rendering plugin: three GPU buffers (positions, UVs, indices)
 * created once when the plugin is built, and the per-frame draw routine that
 * reuses them for every drawable, one drawable after the other.
 *
 * The routine is proved against reference functions that say, drawable by
 * drawable and independently of the GPU state, which events a frame must
 * produce; the properties of a frame are lemmas about those functions.
 */
module Renderer {
  import opened Wrappers
  import opened Geometry
  import opened Gl
  import opened Scene

  /** The `Buffers` resource: the three shared buffer objects. */
  datatype Buffers = Buffers(position: nat, uv: nat, index: nat)

  /** Three different buffer objects, all among the first `count` created. */
  predicate Fits(b: Buffers, count: nat)
  {
    b.position < count && b.uv < count && b.index < count &&
    b.position != b.uv && b.uv != b.index && b.position != b.index
  }

  /** `Webgl1RenderingPlugin::build`, as far as buffers go: three fresh, empty buffers. */
  method Build(gl: Context) returns (b: Buffers)
    requires gl.Valid()
    modifies gl`buffers
    ensures gl.Valid() && Fits(b, |gl.buffers|)
    ensures gl.buffers == old(gl.buffers) + [Unset, Unset, Unset]
    ensures b == Buffers(|old(gl.buffers)|, |old(gl.buffers)| + 1, |old(gl.buffers)| + 2)
  {
    var position := gl.CreateBuffer();
    var uv := gl.CreateBuffer();
    var index := gl.CreateBuffer();
    b := Buffers(position, uv, index);
  }

  /** The camera uniform: perspective projection times the inverse camera transform. */
  function CameraMatrix(camera: Camera, glam: Glam, width: u32, height: u32): Mat4
  {
    var p := camera.projection;
    var projection := glam.perspectiveRhGl(p.fov, glam.aspect(width, height), p.near, p.far);
    glam.mul(projection, glam.inverse(glam.computeMatrix(camera.transform)))
  }

  /** What one mesh puts into the three buffers, and the index count of its draw. */
  datatype MeshUpload = MeshUpload(positions: BufferData, uvs: BufferData, indices: BufferData, count: int)

  function Upload(m: Mesh): MeshUpload
    requires Uploadable(m)
  {
    MeshUpload(PositionData(m), UvData(m), IndexBufferData(m), AsI32(|IndexData(m.indices.value)|))
  }

  /** A mesh's upload: three floats per vertex, two per texture coordinate, one u16 per
      index, and a draw count that is the number of u16 indices uploaded. */
  lemma UploadSpec(m: Mesh)
    requires Uploadable(m)
    ensures var u := Upload(m);
      && u.positions.Floats? && |u.positions.floats| == 3 * |m.position.value.triples|
      && u.uvs.Floats? && |u.uvs.floats| == 2 * |m.uv0.value.pairs|
      && u.indices.Shorts?
      && |u.indices.shorts| == (var ix := m.indices.value; if ix.U16? then |ix.shorts| else |ix.longs|)
      && u.count == AsI32(|u.indices.shorts|)
  {
    FlattenPositionsSpec(m.position.value.triples);
    FlattenUvsSpec(m.uv0.value.pairs);
  }

  /** The draw of an upload: it must read exactly the uploaded contents, the camera
      uniform set for the frame and the drawable's own model matrix. */
  function DrawEvent(u: MeshUpload, camera: Option<Mat4>, model: Mat4): Event
  {
    Draw(u.positions, u.uvs, u.indices, camera, Some(model), u.count)
  }

  /** The events one drawable must produce: nothing when its material or image is
      missing, only the texture when its mesh is missing, else the texture, the three
      buffer uploads, the model uniform and the draw. (Panics never reaches here:
      the frame routine requires that no drawable panics.) */
  function DrawableEvents(b: Buffers, camera: Option<Mat4>, d: Drawable, assets: Assets, glam: Glam): seq<Event>
  {
    match Resolve(d, assets)
    case NoMaterial => []
    case NoImage => []
    case Panics => []
    case NoMesh(image) => [TextureUpload(image.width, image.height, image.data)]
    case Ready(image, m) =>
      var u := Upload(m);
      [ TextureUpload(image.width, image.height, image.data),
        BufferUpload(b.position, u.positions),
        BufferUpload(b.uv, u.uvs),
        BufferUpload(b.index, u.indices),
        ModelUniform(glam.computeMatrix(d.transform)),
        DrawEvent(u, camera, glam.computeMatrix(d.transform)) ]
  }

  /** The drawables' events, in iteration order. */
  function DrawablesEvents(b: Buffers, camera: Option<Mat4>, ds: seq<Drawable>, assets: Assets, glam: Glam): seq<Event>
  {
    if ds == [] then []
    else DrawablesEvents(b, camera, ds[..|ds| - 1], assets, glam) + DrawableEvents(b, camera, ds[|ds| - 1], assets, glam)
  }

  /** The events of a whole frame. */
  function FrameEvents(b: Buffers, ds: seq<Drawable>, camera: Camera, assets: Assets, glam: Glam,
                       width: u32, height: u32): seq<Event>
  {
    var m := CameraMatrix(camera, glam, width, height);
    [Event.Clear, CameraUniform(m)] + DrawablesEvents(b, Some(m), ds, assets, glam)
  }

  ghost predicate AllRenderable(ds: seq<Drawable>, assets: Assets)
  {
    forall i :: 0 <= i < |ds| ==> Renderable(ds[i], assets)
  }

  /** The drawables that reach the texture upload: material and image resolve. */
  predicate Textured(d: Drawable, assets: Assets)
  {
    Resolve(d, assets).NoMesh? || Resolve(d, assets).Ready?
  }

  function TexturedCount(ds: seq<Drawable>, assets: Assets): (n: nat)
    ensures n <= |ds|
  {
    if ds == [] then 0
    else TexturedCount(ds[..|ds| - 1], assets) + (if Textured(ds[|ds| - 1], assets) then 1 else 0)
  }

  /** A drawable that reached its draw call: what it uploaded, and its model matrix. */
  datatype Drawn = Drawn(upload: MeshUpload, model: Mat4)

  /** The drawable itself when it reaches the draw call, else nothing. */
  function DrawnBy(d: Drawable, assets: Assets, glam: Glam): (r: seq<Drawn>)
    ensures |r| <= 1
  {
    match Resolve(d, assets)
    case Ready(_, m) => [Drawn(Upload(m), glam.computeMatrix(d.transform))]
    case _ => []
  }

  /** The drawables that reach the draw call, in iteration order. */
  function DrawnMeshes(ds: seq<Drawable>, assets: Assets, glam: Glam): seq<Drawn>
  {
    if ds == [] then [] else DrawnMeshes(ds[..|ds| - 1], assets, glam) + DrawnBy(ds[|ds| - 1], assets, glam)
  }

  /** The buffer contents after the draws `drawn`: the shared buffers hold the last
      drawable's data, every other buffer is as it was. */
  function BuffersAfter(b: Buffers, drawn: seq<Drawn>, buffers0: seq<BufferData>): seq<BufferData>
    requires Fits(b, |buffers0|)
  {
    if drawn == [] then buffers0
    else
      var u := drawn[|drawn| - 1].upload;
      buffers0[b.position := u.positions][b.uv := u.uvs][b.index := u.indices]
  }

  function BindingsAfter(b: Buffers, drawn: seq<Drawn>, bindings0: Bindings): Bindings
  {
    if drawn == [] then bindings0 else Bindings(Some(b.uv), Some(b.index), Some(b.position), Some(b.uv))
  }

  function ModelAfter(drawn: seq<Drawn>, model0: Option<Mat4>): Option<Mat4>
  {
    if drawn == [] then model0 else Some(drawn[|drawn| - 1].model)
  }

  /** What the shared state holds depends only on the last drawable drawn. */
  lemma {:induction false} AfterStep(b: Buffers, drawn: seq<Drawn>, step: seq<Drawn>, buffers0: seq<BufferData>,
                  bindings0: Bindings, model0: Option<Mat4>)
    requires Fits(b, |buffers0|) && |step| <= 1
    ensures BuffersAfter(b, drawn + step, buffers0) == BuffersAfter(b, step, BuffersAfter(b, drawn, buffers0))
    ensures BindingsAfter(b, drawn + step, bindings0) == BindingsAfter(b, step, BindingsAfter(b, drawn, bindings0))
    ensures ModelAfter(drawn + step, model0) == ModelAfter(step, ModelAfter(drawn, model0))
  {
    if step == [] {
      assert drawn + step == drawn;
    }
  }

  /** The context after one drawable: the reference effect of one loop iteration. */
  function Step(s: State, b: Buffers, d: Drawable, assets: Assets, glam: Glam): (r: State)
    requires Fits(b, |s.buffers|)
    ensures |r.buffers| == |s.buffers|
  {
    var drawn := DrawnBy(d, assets, glam);
    State(BuffersAfter(b, drawn, s.buffers), BindingsAfter(b, drawn, s.bindings),
          s.textures + (if Textured(d, assets) then 1 else 0), s.cameraUniform,
          ModelAfter(drawn, s.modelUniform), s.log + DrawableEvents(b, s.cameraUniform, d, assets, glam))
  }

  /** The context the reference functions prescribe after the drawables `ds`. */
  function Expected(s: State, b: Buffers, ds: seq<Drawable>, assets: Assets, glam: Glam): (r: State)
    requires Fits(b, |s.buffers|)
    ensures |r.buffers| == |s.buffers|
  {
    var drawn := DrawnMeshes(ds, assets, glam);
    State(BuffersAfter(b, drawn, s.buffers), BindingsAfter(b, drawn, s.bindings),
          s.textures + TexturedCount(ds, assets), s.cameraUniform,
          ModelAfter(drawn, s.modelUniform), s.log + DrawablesEvents(b, s.cameraUniform, ds, assets, glam))
  }

  /** The context once the frame is cleared and the camera uniform is set. */
  function FrameStart(s: State, camera: Camera, glam: Glam, width: u32, height: u32): (r: State)
    ensures r.buffers == s.buffers
  {
    var m := CameraMatrix(camera, glam, width, height);
    s.(cameraUniform := Some(m), log := s.log + [Event.Clear, CameraUniform(m)])
  }

  /** One more iteration moves the context from the expected state after the first `i`
      drawables to the expected state after the first `i + 1`: the loop's step meets the reference. */
  lemma StepMeetsReference(s: State, b: Buffers, ds: seq<Drawable>, i: nat, assets: Assets, glam: Glam)
    requires Fits(b, |s.buffers|) && i < |ds|
    ensures Step(Expected(s, b, ds[..i], assets, glam), b, ds[i], assets, glam) == Expected(s, b, ds[..i + 1], assets, glam)
  {
    var init, d := ds[..i], ds[i];
    assert ds[..i + 1] == init + [d];
    AppendOne(b, s.cameraUniform, init, d, assets, glam);
    var drawn := DrawnMeshes(init, assets, glam);
    AfterStep(b, drawn, DrawnBy(d, assets, glam), s.buffers, s.bindings, s.modelUniform);
    var e, last := DrawablesEvents(b, s.cameraUniform, init, assets, glam), DrawableEvents(b, s.cameraUniform, d, assets, glam);
    assert (s.log + e) + last == s.log + (e + last);
  }

  /** Each reference function over `ds + [d]` is its value over `ds` extended by `d`. */
  lemma AppendOne(b: Buffers, camera: Option<Mat4>, ds: seq<Drawable>, d: Drawable, assets: Assets, glam: Glam)
    ensures DrawablesEvents(b, camera, ds + [d], assets, glam) ==
            DrawablesEvents(b, camera, ds, assets, glam) + DrawableEvents(b, camera, d, assets, glam)
    ensures TexturedCount(ds + [d], assets) == TexturedCount(ds, assets) + (if Textured(d, assets) then 1 else 0)
    ensures DrawnMeshes(ds + [d], assets, glam) == DrawnMeshes(ds, assets, glam) + DrawnBy(d, assets, glam)
  {
    assert (ds + [d])[..|ds|] == ds;
  }

  /** A frame appends exactly the reference frame events to the log, and creates one
      texture per drawable whose material and image resolve. */
  lemma FrameLog(s: State, b: Buffers, ds: seq<Drawable>, camera: Camera, assets: Assets, glam: Glam,
                 width: u32, height: u32)
    requires Fits(b, |s.buffers|)
    ensures var r := Expected(FrameStart(s, camera, glam, width, height), b, ds, assets, glam);
      && r.log == s.log + FrameEvents(b, ds, camera, assets, glam, width, height)
      && r.textures == s.textures + TexturedCount(ds, assets)
      && r.cameraUniform == Some(CameraMatrix(camera, glam, width, height))
  {
    var m := CameraMatrix(camera, glam, width, height);
    var prefix := [Event.Clear, CameraUniform(m)];
    var events := DrawablesEvents(b, Some(m), ds, assets, glam);
    assert (s.log + prefix) + events == s.log + (prefix + events);
  }

  /** A frame creates no buffer and writes none but the three shared ones. */
  lemma FrameBuffers(s: State, b: Buffers, ds: seq<Drawable>, camera: Camera, assets: Assets, glam: Glam,
                     width: u32, height: u32)
    requires Fits(b, |s.buffers|)
    ensures var r := Expected(FrameStart(s, camera, glam, width, height), b, ds, assets, glam);
      && |r.buffers| == |s.buffers|
      && forall h :: 0 <= h < |s.buffers| && h != b.position && h != b.uv && h != b.index ==>
           r.buffers[h] == s.buffers[h]
  {
    BuffersAfterKeepsOthers(b, DrawnMeshes(ds, assets, glam), s.buffers);
  }

  /** Only the three shared buffers are ever written. */
  lemma BuffersAfterKeepsOthers(b: Buffers, drawn: seq<Drawn>, buffers0: seq<BufferData>)
    requires Fits(b, |buffers0|)
    ensures |BuffersAfter(b, drawn, buffers0)| == |buffers0|
    ensures forall h :: 0 <= h < |buffers0| && h != b.position && h != b.uv && h != b.index ==>
              BuffersAfter(b, drawn, buffers0)[h] == buffers0[h]
  {
  }

  /** `draw_meshes_system`: one frame. */
  method DrawMeshes(gl: Context, b: Buffers, drawables: seq<Drawable>, cameras: seq<Camera>,
                    assets: Assets, glam: Glam, width: u32, height: u32)
    requires gl.Valid() && Fits(b, |gl.buffers|)
    requires |cameras| == 1
    requires AllRenderable(drawables, assets)
    modifies gl
    ensures gl.Valid()
    ensures gl.Snapshot() == Expected(FrameStart(old(gl.Snapshot()), cameras[0], glam, width, height),
                                      b, drawables, assets, glam)
  {
    BeginFrame(gl, cameras[0], glam, width, height);
    ghost var s1 := gl.Snapshot();
    for i := 0 to |drawables|
      invariant gl.Valid() && Fits(b, |gl.buffers|)
      invariant gl.Snapshot() == Expected(s1, b, drawables[..i], assets, glam)
    {
      DrawDrawable(gl, b, drawables[i], assets, glam);
      StepMeetsReference(s1, b, drawables, i, assets, glam);
    }
    assert drawables[..|drawables|] == drawables;
  }

  /** The start of a frame: clear, then set the camera uniform from the one camera. */
  method BeginFrame(gl: Context, camera: Camera, glam: Glam, width: u32, height: u32)
    modifies gl`log, gl`cameraUniform, gl`modelUniform
    ensures gl.Snapshot() == FrameStart(old(gl.Snapshot()), camera, glam, width, height)
  {
    gl.Clear();
    // set up camera uniform
    var p := camera.projection;
    var aspect := glam.aspect(width, height);
    var projection := glam.perspectiveRhGl(p.fov, aspect, p.near, p.far);
    var matrix := glam.mul(projection, glam.inverse(glam.computeMatrix(camera.transform)));
    gl.UniformMatrix(Uniform.Camera, matrix);
  }

  /** One iteration of the frame loop; each `continue` of the loop is a return here. */
  method DrawDrawable(gl: Context, b: Buffers, d: Drawable, assets: Assets, glam: Glam)
    requires gl.Valid() && Fits(b, |gl.buffers|)
    requires Renderable(d, assets)
    modifies gl
    ensures gl.Valid() && |gl.buffers| == |old(gl.buffers)|
    ensures gl.Snapshot() == Step(old(gl.Snapshot()), b, d, assets, glam)
  {
    // set up texture
    if d.material !in assets.materials {
      assert Resolve(d, assets) == NoMaterial;
      return;
    }
    var imageHandle := assets.materials[d.material].baseColorTexture.value;
    if imageHandle !in assets.images {
      assert Resolve(d, assets) == NoImage;
      return;
    }
    var image := assets.images[imageHandle];
    var texture := gl.CreateTexture();
    gl.TexImage2D(texture, image.width, image.height, image.data);
    // do mesh
    if d.mesh !in assets.meshes {
      assert Resolve(d, assets) == NoMesh(image);
      return;
    }
    var mesh := assets.meshes[d.mesh];
    assert Resolve(d, assets) == Ready(image, mesh);
    DrawMesh(gl, b, mesh, glam.computeMatrix(d.transform));
  }

  /** The rest of an iteration once the mesh resolves: buffers, model uniform, draw. */
  method DrawMesh(gl: Context, b: Buffers, mesh: Mesh, model: Mat4)
    requires gl.Valid() && Fits(b, |gl.buffers|)
    requires Uploadable(mesh)
    modifies gl
    ensures gl.Valid()
    ensures var u := Upload(mesh);
      gl.Snapshot() == old(gl.Snapshot()).(
        buffers := old(gl.buffers)[b.position := u.positions][b.uv := u.uvs][b.index := u.indices],
        bindings := Bindings(Some(b.uv), Some(b.index), Some(b.position), Some(b.uv)),
        modelUniform := Some(model),
        log := old(gl.log) + [BufferUpload(b.position, u.positions), BufferUpload(b.uv, u.uvs),
                              BufferUpload(b.index, u.indices), ModelUniform(model),
                              DrawEvent(u, old(gl.cameraUniform), model)])
  {
    var indicesLen := UploadMesh(gl, b, mesh);
    // set model uniform
    gl.UniformMatrix(Model, model);
    // draw
    gl.DrawElements(AsI32(indicesLen));
  }

  /** The `indices_len` block: overwrite the three shared buffers with one mesh. */
  method UploadMesh(gl: Context, b: Buffers, mesh: Mesh) returns (indicesLen: nat)
    requires gl.Valid() && Fits(b, |gl.buffers|)
    requires Uploadable(mesh)
    modifies gl`buffers, gl`log, gl`arrayBuffer, gl`elementArrayBuffer, gl`positionPointer, gl`texcoordPointer
    ensures gl.Valid()
    ensures var u := Upload(mesh);
      && indicesLen == |u.indices.shorts| == |IndexData(mesh.indices.value)|
      && AsI32(indicesLen) == u.count
      && gl.buffers == old(gl.buffers)[b.position := u.positions][b.uv := u.uvs][b.index := u.indices]
      && gl.log == old(gl.log) + [BufferUpload(b.position, u.positions), BufferUpload(b.uv, u.uvs),
                                  BufferUpload(b.index, u.indices)]
    ensures gl.CurrentBindings() == Bindings(Some(b.uv), Some(b.index), Some(b.position), Some(b.uv))
  {
    // positions
    gl.BindBuffer(ArrayBuffer, b.position);
    gl.VertexAttribPointer(Position);
    var positions := FlattenPositions(mesh.position.value.triples);
    gl.BufferData(ArrayBuffer, Floats(positions));
    // UVs
    gl.BindBuffer(ArrayBuffer, b.uv);
    gl.VertexAttribPointer(Texcoord);
    var uvs := FlattenUvs(mesh.uv0.value.pairs);
    gl.BufferData(ArrayBuffer, Floats(uvs));
    // indices
    var indices := IndexData(mesh.indices.value);
    gl.BindBuffer(ElementArrayBuffer, b.index);
    gl.BufferData(ElementArrayBuffer, Shorts(indices));
    indicesLen := |indices|;
  }
}
