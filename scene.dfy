/**
 * What the draw routine reads from the scene and the asset stores: drawable
 * entities, the perspective camera, and the mesh, material and image assets
 * their handles refer to. Matrix arithmetic is glam's floating-point work and
 * is not modelled: the few glam operations the renderer calls are given as
 * uninterpreted parameters.
 */
module Scene {
  import opened Wrappers
  import opened Geometry
  import opened Gl

  datatype MeshHandle = MeshHandle(mesh: nat)
  datatype MaterialHandle = MaterialHandle(material: nat)
  datatype ImageHandle = ImageHandle(image: nat)

  /** An RGBA8 image: its texture descriptor's size and its pixel bytes. */
  datatype Image = Image(width: u32, height: u32, data: seq<bv8>)

  /** A StandardMaterial, of which the renderer reads only the base-colour texture. */
  datatype Material = Material(baseColorTexture: Option<ImageHandle>)

  /** A Mesh: its position and first UV attribute, and its index data, each possibly absent. */
  datatype Mesh = Mesh(
    position: Option<VertexAttributeValues>,
    uv0: Option<VertexAttributeValues>,
    indices: Option<Indices>)

  /** `Assets<Mesh>`, `Assets<StandardMaterial>`, `Assets<Image>`: a handle resolves when it is a key. */
  datatype Assets = Assets(
    meshes: map<MeshHandle, Mesh>,
    materials: map<MaterialHandle, Material>,
    images: map<ImageHandle, Image>)

  /** A GlobalTransform: translation, rotation and scale, as opaque floats. */
  datatype GlobalTransform = GlobalTransform(translation: seq<Float>, rotation: seq<Float>, scale: seq<Float>)

  /** One item of the `(GlobalTransform, Handle<Mesh>, Handle<StandardMaterial>)` query. */
  datatype Drawable = Drawable(transform: GlobalTransform, mesh: MeshHandle, material: MaterialHandle)

  datatype PerspectiveProjection = PerspectiveProjection(fov: Float, near: Float, far: Float)

  /** One item of the `(GlobalTransform, PerspectiveProjection)` camera query. */
  datatype Camera = Camera(transform: GlobalTransform, projection: PerspectiveProjection)

  /** The glam and bevy matrix operations the renderer calls, left uninterpreted. */
  datatype Glam = Glam(
    computeMatrix: GlobalTransform -> Mat4,
    perspectiveRhGl: (Float, Float, Float, Float) -> Mat4,
    inverse: Mat4 -> Mat4,
    mul: (Mat4, Mat4) -> Mat4,
    aspect: (u32, u32) -> Float)

  /** How far the lookups of one drawable get. Panics: a resolved material without a
      base-colour texture, or a resolved mesh without the attributes, formats and
      indices the renderer unwraps; the source panics there. */
  datatype Resolution = NoMaterial | NoImage | NoMesh(image: Image) | Ready(image: Image, mesh: Mesh) | Panics

  function Resolve(d: Drawable, assets: Assets): (r: Resolution)
    ensures r.Ready? ==> Uploadable(r.mesh)
  {
    if d.material !in assets.materials then NoMaterial
    else
      match assets.materials[d.material].baseColorTexture
      case None => Panics
      case Some(image) =>
        if image !in assets.images then NoImage
        else if d.mesh !in assets.meshes then NoMesh(assets.images[image])
        else if Uploadable(assets.meshes[d.mesh]) then Ready(assets.images[image], assets.meshes[d.mesh])
        else Panics
  }

  /** The attribute and index unwraps and the attribute-format matches do not panic. */
  predicate Uploadable(m: Mesh)
  {
    && m.position.Some? && m.position.value.Float32x3?
    && m.uv0.Some? && m.uv0.value.Float32x2?
    && m.indices.Some?
  }

  /** Drawing this drawable does not panic (assets that are missing are fine). */
  predicate Renderable(d: Drawable, assets: Assets)
  {
    !Resolve(d, assets).Panics?
  }

  /** Float array for the position buffer. */
  function PositionData(m: Mesh): BufferData
    requires Uploadable(m)
  {
    Floats(FlattenPositions(m.position.value.triples))
  }

  /** Float array for the UV buffer. */
  function UvData(m: Mesh): BufferData
    requires Uploadable(m)
  {
    Floats(FlattenUvs(m.uv0.value.pairs))
  }

  /** u16 array for the index buffer. */
  function IndexBufferData(m: Mesh): BufferData
    requires Uploadable(m)
  {
    Shorts(IndexData(m.indices.value))
  }
}
