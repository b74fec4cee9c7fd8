/**
 * An abstract WebGL 1 rendering context: the part of its state the renderer
 * touches. Buffer objects are named by their creation order. Each WebGL call
 * kept in this model is a method that changes exactly the modelled state the
 * call changes, and the calls whose effect the frame properties observe
 * (clearing, uploads of buffers, textures and uniforms, draws) append an
 * event to the context's log. `viewport`, `use_program`, `bind_texture`,
 * `generate_mipmap`, `enable_vertex_attrib_array` and the location lookups
 * have no method; `TexImage2D` only logs, without recording which texture
 * it fills.
 */
module Gl {
  import opened Wrappers
  import opened Geometry

  /** A 4x4 f32 matrix as `to_cols_array` hands it over: its columns, flattened. */
  datatype Mat4 = Mat4(cols: seq<Float>)

  /** The contents of a buffer object: nothing yet, a Float32Array or a Uint16Array. */
  datatype BufferData = Unset | Floats(floats: seq<Float>) | Shorts(shorts: seq<u16>)

  /** The two binding points `bind_buffer` can bind to. */
  datatype Target = ArrayBuffer | ElementArrayBuffer

  /** The two vertex attributes of the program: `a_position` and `a_texcoord`. */
  datatype Attribute = Position | Texcoord

  /** The two matrix uniforms of the program: `u_camera` and `u_model`. */
  datatype Uniform = Camera | Model

  /** What the two binding points and the two attribute pointers name. */
  datatype Bindings = Bindings(
    arrayBuffer: Option<nat>, elementArrayBuffer: Option<nat>,
    positionPointer: Option<nat>, texcoordPointer: Option<nat>)

  /** Everything the renderer can change in a context, as one value. */
  datatype State = State(
    buffers: seq<BufferData>, bindings: Bindings, textures: nat,
    cameraUniform: Option<Mat4>, modelUniform: Option<Mat4>, log: seq<Event>)

  datatype Event =
    | Clear
    | CameraUniform(camera: Mat4)
    | TextureUpload(width: u32, height: u32, pixels: seq<bv8>)
    | BufferUpload(buffer: nat, data: BufferData)
    | ModelUniform(model: Mat4)
      /** An indexed draw, with the buffer contents and the uniforms it reads at that moment. */
    | Draw(positions: BufferData, uvs: BufferData, indices: BufferData,
           cameraSeen: Option<Mat4>, modelSeen: Option<Mat4>, count: int)

  class Context {
    var buffers: seq<BufferData>
    var arrayBuffer: Option<nat>
    var elementArrayBuffer: Option<nat>
    var positionPointer: Option<nat>
    var texcoordPointer: Option<nat>
    var textures: nat
    var cameraUniform: Option<Mat4>
    var modelUniform: Option<Mat4>
    var log: seq<Event>

    /** Every binding names a buffer object that exists. */
    ghost predicate Valid()
      reads this
    {
      Names(arrayBuffer) && Names(elementArrayBuffer) &&
      Names(positionPointer) && Names(texcoordPointer)
    }

    ghost predicate Names(binding: Option<nat>)
      reads this
    {
      binding.Some? ==> binding.value < |buffers|
    }

    function CurrentBindings(): Bindings
      reads this
    {
      Bindings(arrayBuffer, elementArrayBuffer, positionPointer, texcoordPointer)
    }

    function Snapshot(): State
      reads this
    {
      State(buffers, CurrentBindings(), textures, cameraUniform, modelUniform, log)
    }

    /** The contents of the buffer a binding names, Unset when nothing is bound. */
    function Read(binding: Option<nat>): BufferData
      reads this
    {
      if binding.Some? && binding.value < |buffers| then buffers[binding.value] else Unset
    }

    constructor ()
      ensures Valid()
      ensures buffers == [] && log == [] && textures == 0
      ensures arrayBuffer == None && elementArrayBuffer == None
      ensures positionPointer == None && texcoordPointer == None
      ensures cameraUniform == None && modelUniform == None
    {
      buffers, log, textures := [], [], 0;
      arrayBuffer, elementArrayBuffer := None, None;
      positionPointer, texcoordPointer := None, None;
      cameraUniform, modelUniform := None, None;
    }

    /** `create_buffer`: a new, empty buffer object. */
    method CreateBuffer() returns (h: nat)
      requires Valid()
      modifies this`buffers
      ensures Valid()
      ensures h == |old(buffers)| && buffers == old(buffers) + [Unset]
    {
      h := |buffers|;
      buffers := buffers + [Unset];
    }

    /** `clear(COLOR_BUFFER_BIT | DEPTH_BUFFER_BIT)`. */
    method Clear()
      modifies this`log
      ensures log == old(log) + [Event.Clear]
    {
      log := log + [Event.Clear];
    }

    /** `bind_buffer(target, Some(h))`. */
    method BindBuffer(target: Target, h: nat)
      requires Valid() && h < |buffers|
      modifies this`arrayBuffer, this`elementArrayBuffer
      ensures Valid()
      ensures arrayBuffer == if target == ArrayBuffer then Some(h) else old(arrayBuffer)
      ensures elementArrayBuffer == if target == ElementArrayBuffer then Some(h) else old(elementArrayBuffer)
    {
      if target == ArrayBuffer {
        arrayBuffer := Some(h);
      } else {
        elementArrayBuffer := Some(h);
      }
    }

    /** `vertex_attrib_pointer`: the attribute reads from the buffer bound to ARRAY_BUFFER. */
    method VertexAttribPointer(attribute: Attribute)
      requires Valid()
      modifies this`positionPointer, this`texcoordPointer
      ensures Valid()
      ensures positionPointer == if attribute == Position then arrayBuffer else old(positionPointer)
      ensures texcoordPointer == if attribute == Texcoord then arrayBuffer else old(texcoordPointer)
    {
      if attribute == Position {
        positionPointer := arrayBuffer;
      } else {
        texcoordPointer := arrayBuffer;
      }
    }

    /** `buffer_data`: replaces the whole contents of the buffer bound to the target. */
    method BufferData(target: Target, data: BufferData)
      requires Valid()
      requires (if target == ArrayBuffer then arrayBuffer else elementArrayBuffer).Some?
      modifies this`buffers, this`log
      ensures Valid()
      ensures var h := (if target == ArrayBuffer then arrayBuffer else elementArrayBuffer).value;
        buffers == old(buffers)[h := data] && log == old(log) + [BufferUpload(h, data)]
    {
      var h := (if target == ArrayBuffer then arrayBuffer else elementArrayBuffer).value;
      buffers := buffers[h := data];
      log := log + [BufferUpload(h, data)];
    }

    /** `create_texture`: a new texture object, named by its creation order. */
    method CreateTexture() returns (t: nat)
      modifies this`textures
      ensures t == old(textures) && textures == old(textures) + 1
    {
      t := textures;
      textures := textures + 1;
    }

    /** `bind_texture(TEXTURE_2D, t)`, `tex_image_2d` with RGBA8 pixels, `generate_mipmap`. */
    method TexImage2D(t: nat, width: u32, height: u32, pixels: seq<bv8>)
      requires t < textures
      modifies this`log
      ensures log == old(log) + [TextureUpload(width, height, pixels)]
    {
      log := log + [TextureUpload(width, height, pixels)];
    }

    /** `uniform_matrix4fv_with_f32_array` on one of the two matrix uniforms. */
    method UniformMatrix(uniform: Uniform, m: Mat4)
      modifies this`cameraUniform, this`modelUniform, this`log
      ensures cameraUniform == if uniform == Camera then Some(m) else old(cameraUniform)
      ensures modelUniform == if uniform == Model then Some(m) else old(modelUniform)
      ensures log == old(log) + [if uniform == Camera then CameraUniform(m) else ModelUniform(m)]
    {
      if uniform == Camera {
        cameraUniform := Some(m);
        log := log + [CameraUniform(m)];
      } else {
        modelUniform := Some(m);
        log := log + [ModelUniform(m)];
      }
    }

    /** `draw_elements(TRIANGLES, count, UNSIGNED_SHORT, 0)`: reads the buffers the
        attribute pointers and the ELEMENT_ARRAY_BUFFER binding name, and both uniforms. */
    method DrawElements(count: int)
      modifies this`log
      ensures log == old(log) + [Draw(Read(positionPointer), Read(texcoordPointer), Read(elementArrayBuffer),
                                      cameraUniform, modelUniform, count)]
    {
      log := log + [Draw(Read(positionPointer), Read(texcoordPointer), Read(elementArrayBuffer),
                         cameraUniform, modelUniform, count)];
    }
  }
}
