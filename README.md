# A model of the WebGL 1 mesh renderer's draw routine

The renderer brings a scene to a WebGL 1 canvas with one shader program and
exactly three GPU buffers: positions, UVs and 16-bit indices. The plugin's
`build` creates the three buffers once. The per-frame system
`draw_meshes_system` then does the following:

- clears the canvas;
- uploads the camera matrix of the single perspective camera;
- walks the drawables one after the other. For each drawable it resolves
  the material's base-colour image and uploads it as a texture. It then
  resolves the mesh, overwrites the three shared buffers with the mesh's
  flattened positions, its flattened UVs and its indices narrowed to
  16 bits, uploads the model matrix, and issues an indexed draw.

A drawable whose material, image or mesh is missing is skipped at that point,
and the loop moves on to the next drawable.

The project models this as follows:

- **`Geometry`** (geometry.dfy) holds the pure helpers as functions:
  - attribute flattening, with its inverse `Unflatten`;
  - u32-to-u16 index narrowing (Rust's `as u16`, value mod 65536), with its
    partner `Widen`;
  - the `usize as i32` cast of the draw count.

  Floats are kept as opaque 32-bit patterns, since nothing in the routine
  computes on them.
- **`Gl`** (gl.dfy) is an abstract WebGL context: a class whose fields are
  - the contents of every buffer object;
  - the ARRAY_BUFFER and ELEMENT_ARRAY_BUFFER bindings;
  - the two attribute pointers;
  - the number of textures created;
  - the two matrix uniforms;
  - an append-only log of visible events.

  Each WebGL call the model keeps is a method. The method changes exactly
  the modelled fields that call changes. `DrawElements` logs what the draw
  reads at that moment: the buffers the attribute pointers and the element
  binding name, and both uniforms. `viewport`, `use_program`,
  `enable_vertex_attrib_array`, `bind_texture`, `generate_mipmap` and the
  attribute and uniform location lookups have no method, and `TexImage2D`
  only logs the image; it does not record which texture it fills.
- **`Scene`** (scene.dfy) holds the handles, the asset stores (maps; a handle
  resolves when it is a key), drawables, the camera, and the glam matrix
  operations as uninterpreted functions. `Resolve` says how far one
  drawable's lookups get.
- **`Renderer`** (renderer.dfy) holds:
  - the `Buffers` resource, with `Build`;
  - the frame routine `DrawMeshes`. Its loop body is split into `DrawDrawable`
    (one iteration, with every `continue` as an early return), `DrawMesh` and
    `UploadMesh`;
  - reference functions that say, drawable by drawable and without looking at
    the GPU, which events a frame must log and what state it must leave
    (`DrawableEvents`, `FrameEvents`, `Expected`).

  `DrawMeshes` is proved to leave the context in exactly the `Expected` state.
- **`FrameProperties`** (frame_lemmas.dfy) proves what the routine promises,
  as lemmas about those reference functions:
  - the order of a frame's events;
  - that each draw reads exactly its own drawable's uploads and model matrix;
  - that only the shared buffers are written;
  - how many textures a frame creates;
  - what a drawable with missing assets contributes.

## Model

| member | source | states |
|---|---|---|
| Geometry.FlattenPositionsSpec | src/lib.rs:146-150 | The flattened positions hold 3 floats per vertex. Float 3i+j is component j of vertex i. Cutting the result back into triples gives the vertices back. |
| Geometry.FlattenUvsSpec | src/lib.rs:166-170 | The flattened UVs hold 2 floats per coordinate pair. Float 2i+j is component j of pair i. Cutting the result back into pairs gives the UVs back. |
| Geometry.FlattenAt | src/lib.rs:146-150 | For tuples of width k, component j of tuple i lands at position k*i+j of the flat sequence, and the flat length is k times the tuple count. |
| Geometry.UnflattenFlatten | src/lib.rs:146-150 | Flattening tuples of one width k > 0 loses nothing: `Unflatten(k, ·)` inverts it. |
| Geometry.Truncate | src/lib.rs:181 | `long as u16` keeps the low half-word: the u32 is some high half-word times 65536 plus the result. |
| Geometry.TruncateIsMod | src/lib.rs:181 | `long as u16` is the value mod 65536. |
| Geometry.NarrowU32 | src/lib.rs:181 | Narrowing a U32 index list gives one u16 per index, so the list keeps its length. |
| Geometry.IndexData | src/lib.rs:178-183 | The 16-bit index data has as many entries as the mesh's index list, whichever width it has. |
| Geometry.NarrowWiden | src/lib.rs:180-182 | Narrowing is a left inverse of widening: u16 values widened to u32 narrow back to themselves. |
| Geometry.IndexDataSpec | src/lib.rs:178-183 | U16 indices pass through unchanged. U32 indices keep their count, and index i becomes its value mod 65536. |
| Geometry.NarrowLossless | src/lib.rs:180-182 | Widening the narrowed indices gives back the original indices exactly when every index is below 65536. |
| Geometry.NarrowWraps | src/lib.rs:180-182 | The truncation boundary: indices 65535, 65536 and 65537 become 65535, 0 and 1. |
| Geometry.AsI32 | src/lib.rs:207 | `indices_len as i32` is the i32 congruent to the length mod 2^32. It equals the length whenever the length is below 2^31. |
| Geometry.Flatten | src/lib.rs:146-150 | The `flat_map` of the attribute tuples. It has no contract of its own; `FlattenAt`, `UnflattenFlatten`, `FlattenPositionsSpec` and `FlattenUvsSpec` state its length, layout and inverse. |
| Gl.Context.CreateBuffer | src/lib.rs:22-24 | Creating a buffer appends one empty buffer object and returns its handle, which is the old buffer count. Nothing else changes. |
| Gl.Context.Clear | src/lib.rs:69 | Clearing appends a Clear event and changes nothing else. |
| Gl.Context.BindBuffer | src/lib.rs:130 | Binding an existing buffer to a target sets that target's binding to it and leaves the other binding as it was. |
| Gl.Context.VertexAttribPointer | src/lib.rs:131-138 | The attribute's pointer takes the buffer bound to ARRAY_BUFFER, and the other pointer is kept. |
| Gl.Context.BufferData | src/lib.rs:153 | The buffer bound to the target gets the new contents, every other buffer is kept, and the upload is logged. |
| Gl.Context.CreateTexture | src/lib.rs:101 | One more texture exists, named by the old count. |
| Gl.Context.TexImage2D | src/lib.rs:102-117 | Uploading a texture logs the image's size and pixel bytes. |
| Gl.Context.UniformMatrix | src/lib.rs:200-204 | The chosen matrix uniform takes the matrix, the other uniform is kept, and the upload is logged. |
| Gl.Context.DrawElements | src/lib.rs:207 | A draw logs the buffers the two attribute pointers and the element binding name, both uniforms, and the count, as they are at that moment. |
| Scene.Resolve | src/lib.rs:88-125 | How far one drawable's lookups get: no material, no image, no mesh, or every lookup succeeds. A resolved material without a base-colour texture, or a mesh that the unwraps and format matches reject, panics. A Ready result always carries a mesh that can be uploaded. |
| Scene.Uploadable | src/lib.rs:141-178 | A predicate: the mesh has positions in `Float32x3` format, UVs in `Float32x2` format and an index list, so none of the unwraps and format matches panics. `Scene.Resolve` ensures that a Ready drawable's mesh satisfies it. |
| Renderer.Build | src/lib.rs:22-29 | Creating the `Buffers` resource appends three empty buffers. The resource names those three, and they are distinct. |
| Renderer.CameraMatrix | src/lib.rs:74-79 | The camera matrix: the perspective matrix (field of view, aspect width/height, near, far) times the inverse of the camera transform. It is a definition with no contract of its own; `BeginFrame` and `FrameLog` state that the frame uploads it and leaves it in the camera uniform. |
| Renderer.Upload | src/lib.rs:141-207 | What one mesh uploads: flattened positions, flattened UVs, narrowed indices and the cast draw count. It is a definition; `UploadSpec` states its shape. |
| Renderer.UploadSpec | src/lib.rs:141-207 | An upload holds three floats per vertex, two per UV pair and one u16 per entry of the mesh's index list, whichever its width, and its draw count is the i32 cast of the number of u16 indices uploaded. |
| Renderer.DrawableEvents | src/lib.rs:86-207 | The events one drawable logs: nothing on a missing material or image, the texture upload alone on a missing mesh, otherwise the texture upload, three buffer uploads, the model upload and the draw. It is a reference definition; `DrawDrawable` and the `FrameProperties` lemmas state its properties. |
| Renderer.Expected | src/lib.rs:85-208 | The reference state after the given drawables: log extended by their events, shared buffers holding the last drawn mesh's data, bindings, model uniform and texture count as the drawables leave them. It keeps the number of buffers. |
| Renderer.FrameStart | src/lib.rs:69-81 | The reference start of a frame: the log gains Clear and then the camera upload, the camera uniform holds the frame's camera matrix, and the buffers are untouched. |
| Renderer.BeginFrame | src/lib.rs:69-81 | The frame starts with Clear, then the camera uniform is set to the projection times the inverse camera transform, and both are logged in that order. |
| Renderer.DrawMeshes | src/lib.rs:48-209 | After a frame, the whole context (buffers, bindings, texture count, uniforms, log) is the reference state `Expected`. That state is the state after `BeginFrame`, followed by every drawable in iteration order. |
| Renderer.Step | src/lib.rs:86-207 | The reference effect of one iteration: the log gains the drawable's events, the texture count grows by one when material and image resolve, and the shared buffers, bindings and model uniform change only when the drawable reaches the draw, to its own data. The number of buffers is kept. |
| Renderer.DrawDrawable | src/lib.rs:86-207 | One iteration of the loop moves the context by exactly the reference step of that drawable. A missing material or image changes nothing. A missing mesh only creates and uploads the texture. A ready drawable also overwrites the shared buffers, sets the model uniform and draws. |
| Renderer.DrawMesh | src/lib.rs:120-207 | Once the mesh resolves, the three shared buffers hold its data and the model uniform holds its matrix. The log gains the three uploads, the model upload and a draw that reads that data, the current camera and the drawable's model matrix. |
| Renderer.UploadMesh | src/lib.rs:120-195 | The position, UV and index buffers get the mesh's flattened positions, flattened UVs and narrowed indices. Only those three buffers change, and the pointers and the element binding name them. The returned length is the draw count before the cast. |
| Renderer.StepMeetsReference | src/lib.rs:85-208 | One more iteration takes the expected state after the first i drawables to the expected state after the first i+1. |
| Renderer.FrameEvents | src/lib.rs:69-208 | The events of a whole frame: Clear, the camera upload, then each drawable's events in iteration order. It is a reference definition; `FrameOrder`, `DrawCountIsIndexCount`, `OnlySharedBuffersWritten`, `FrameDrawsFed` and `FrameDrawsInOrder` state its properties, and `FrameLog` ties the real log to it. |
| Renderer.FrameLog | src/lib.rs:69-208 | A frame appends exactly the reference frame events to the log. It creates one texture per drawable whose material and image resolve, and it leaves the camera uniform at the frame's camera matrix. |
| Renderer.FrameBuffers | src/lib.rs:127-192 | A frame creates no buffer, and every buffer other than the three shared ones keeps its contents. |
| FrameProperties.FrameOrder | src/lib.rs:69-85 | A frame's events open with one Clear and then one camera upload, and neither occurs again in the frame. |
| FrameProperties.DrawCountIsIndexCount | src/lib.rs:193-207 | Every draw of a frame reads 16-bit index data and draws exactly as many indices as that data holds (after the i32 cast). It also sees the frame's camera matrix. |
| FrameProperties.OnlySharedBuffersWritten | src/lib.rs:127-192 | Every buffer upload of a frame goes to the position, UV or index buffer of the `Buffers` resource. |
| FrameProperties.DrawsFed | src/lib.rs:127-207 | Each draw among the drawables' events is immediately preceded by a texture upload, then the uploads of exactly the positions, UVs and indices it reads into the three shared buffers, then the upload of the model matrix it sees. |
| FrameProperties.FrameDrawsFed | src/lib.rs:69-207 | The same holds for every draw of a whole frame. |
| FrameProperties.DrawsInOrder | src/lib.rs:85-207 | The draws among the drawables' events are, one for one and in iteration order, the draws of the drawables that reach the draw call. Each one reads that drawable's own uploaded mesh data and its own model matrix, so draw K never sees drawable K+1's data. |
| FrameProperties.FrameDrawsInOrder | src/lib.rs:69-207 | The same, for a whole frame with its camera matrix. |
| FrameProperties.TextureUploadsCounted | src/lib.rs:99-117 | The drawables upload exactly one texture per drawable whose material and image resolve. |
| FrameProperties.SkipIsRemoval | src/lib.rs:88-98 | A drawable whose material or base-colour image does not resolve leaves the frame's whole expected state exactly as if it were not in the sequence. |
| FrameProperties.MissingMeshUploadsTextureOnly | src/lib.rs:99-125 | When the material and image resolve but the mesh does not, the iteration creates and uploads the texture and changes nothing else: no buffer is written and nothing is drawn. |

## Left out

- Shader compilation and linking, `use_program`, enabling culling and depth testing, and the canvas/context lookup are not modelled. `use_program`, `get_gl("bevy")` and the canvas lookup run every frame, but they are foreign calls with no effect on the modelled state. Shader compilation lives in util.rs, which is not part of this model.
- The attribute and uniform location lookups are not modelled, and neither is the `-1 as u32` a missing attribute would give. The two attributes and the two uniforms are fixed names (`Attribute`, `Uniform`). `enable_vertex_attrib_array` and the size, type and stride arguments of `vertex_attrib_pointer` are not modelled.
- `viewport`, `bind_texture`, `generate_mipmap` and the texture format arguments are not modelled. `TexImage2D` logs only the size and the pixel bytes, and a texture's identity is its creation number.
- The projection, view and model matrices are not computed. `perspective_rh_gl`, `inverse`, matrix product, `compute_matrix` and the f32 aspect division are uninterpreted functions in `Glam`, as floating-point work in a foreign library.
- Panics are preconditions, not behaviour: `single()` on the camera query (exactly one camera), the `base_color_texture` unwrap, the attribute and index unwraps, and the two attribute-format matches. `DrawMeshes` requires that no drawable reaches a panic (`AllRenderable`).
- DrawDrawable: the effects the source makes before a panic (bindings and attribute pointers set ahead of the attribute unwrap) are outside the model, since a panicking drawable is excluded by the precondition.
- The `expect`/`unwrap` on `create_buffer`, `create_texture` and `tex_image_2d` are not modelled: these WebGL calls are taken to succeed.
- The `as u32` casts of the array lengths for `Float32Array`/`Uint16Array`, and of the image data length for `Uint8Array`, are not modelled: the model uploads the whole sequence. Neither are the `width as i32` and `height as i32` casts passed to `tex_image_2d`: `TexImage2D` logs the u32 size. A negative draw count after the `as i32` wrap is logged as it is, and WebGL's error for it is not modelled.
- Drawable order is an arbitrary sequence, standing for the ECS query's unspecified iteration order.
- A mesh is expected to have as many UVs as positions. The code never checks this, and neither does the model: the two buffers are filled independently.
- A material without a base-colour texture is a panic case of `Resolve`, not a skip: the code unwraps the handle.
- The `Draw` event does not record the texture bound by `bind_texture` (src/lib.rs:102), so the model does not state that draw K samples drawable K's texture. `TextureUpload` events do not name their texture either; `TextureUploadsCounted` counts them.
- Truncation of 32-bit indices to 16 bits is kept as the code does it. `NarrowLossless` and `NarrowWraps` state exactly when it loses information.
- The demo binaries (bin.rs, test_bin.rs) and plugin registration with ECS resource insertion are not modelled. They are framework plumbing, and bin.rs's own copy of the routine is not registered.
