/**
 * Properties of one frame, stated on the reference events and the reference
 * state that the draw routine is proved to meet: the order of the frame's
 * events, what each draw reads, which buffers are written, how many textures
 * are created, and what a drawable with missing assets contributes.
 */
module FrameProperties {
  import opened Wrappers
  import opened Geometry
  import opened Gl
  import opened Scene
  import opened Renderer

  predicate IsDraw(e: Event) { e.Draw? }

  predicate IsTextureUpload(e: Event) { e.TextureUpload? }

  /** The events of `es` that satisfy `keep`, in order. */
  function Select(es: seq<Event>, keep: Event -> bool): seq<Event>
  {
    if es == [] then []
    else Select(es[..|es| - 1], keep) + (if keep(es[|es| - 1]) then [es[|es| - 1]] else [])
  }

  /** Every selected event satisfies `keep` and is one of the events of `es`. */
  lemma {:induction false} SelectSound(es: seq<Event>, keep: Event -> bool)
    ensures forall e | e in Select(es, keep) :: keep(e) && e in es
  {
    if es != [] {
      SelectSound(es[..|es| - 1], keep);
      forall e | e in Select(es[..|es| - 1], keep) ensures e in es {
        var k :| 0 <= k < |es| - 1 && es[..|es| - 1][k] == e;
        assert es[k] == e;
      }
    }
  }

  lemma {:induction false} SelectAppend(a: seq<Event>, c: seq<Event>, keep: Event -> bool)
    ensures Select(a + c, keep) == Select(a, keep) + Select(c, keep)
  {
    if c == [] {
      assert a + c == a;
    } else {
      assert (a + c)[..|a + c| - 1] == a + c[..|c| - 1];
      SelectAppend(a, c[..|c| - 1], keep);
    }
  }

  /** Selecting from events none of which is kept gives nothing. */
  lemma {:induction false} SelectNone(es: seq<Event>, keep: Event -> bool)
    requires forall k :: 0 <= k < |es| ==> !keep(es[k])
    ensures Select(es, keep) == []
  {
    if es != [] {
      SelectNone(es[..|es| - 1], keep);
    }
  }

  /** Every event of the drawables comes from one drawable's own events. */
  lemma {:induction false} EventOrigin(b: Buffers, camera: Option<Mat4>, ds: seq<Drawable>, assets: Assets,
                                       glam: Glam, k: nat)
    requires k < |DrawablesEvents(b, camera, ds, assets, glam)|
    ensures exists j, o :: 0 <= j < |ds| && 0 <= o < |DrawableEvents(b, camera, ds[j], assets, glam)| &&
              DrawablesEvents(b, camera, ds, assets, glam)[k] == DrawableEvents(b, camera, ds[j], assets, glam)[o]
  {
    var init := ds[..|ds| - 1];
    var pre := DrawablesEvents(b, camera, init, assets, glam);
    var last := DrawableEvents(b, camera, ds[|ds| - 1], assets, glam);
    if k < |pre| {
      EventOrigin(b, camera, init, assets, glam, k);
      var j, o :| 0 <= j < |init| && 0 <= o < |DrawableEvents(b, camera, init[j], assets, glam)| &&
                  pre[k] == DrawableEvents(b, camera, init[j], assets, glam)[o];
      assert init[j] == ds[j];
    } else {
      assert (pre + last)[k] == last[k - |pre|];
    }
  }

  /** The shape every per-drawable event has: no Clear and no camera upload, uploads only
      into the shared buffers, and draws that read 16-bit indices, draw as many of them
      as there are, and see the frame's camera and a model matrix. */
  predicate DrawableEventShape(b: Buffers, camera: Option<Mat4>, e: Event)
  {
    && !e.Clear? && !e.CameraUniform?
    && (e.BufferUpload? ==> e.buffer == b.position || e.buffer == b.uv || e.buffer == b.index)
    && (e.Draw? ==> e.indices.Shorts? && e.count == AsI32(|e.indices.shorts|) &&
                    e.cameraSeen == camera && e.modelSeen.Some?)
  }

  lemma DrawableEventsShape(b: Buffers, camera: Option<Mat4>, d: Drawable, assets: Assets, glam: Glam, o: nat)
    requires o < |DrawableEvents(b, camera, d, assets, glam)|
    ensures DrawableEventShape(b, camera, DrawableEvents(b, camera, d, assets, glam)[o])
  {
  }

  lemma DrawablesEventsShape(b: Buffers, camera: Option<Mat4>, ds: seq<Drawable>, assets: Assets, glam: Glam)
    ensures forall k :: 0 <= k < |DrawablesEvents(b, camera, ds, assets, glam)| ==>
              DrawableEventShape(b, camera, DrawablesEvents(b, camera, ds, assets, glam)[k])
  {
    var es := DrawablesEvents(b, camera, ds, assets, glam);
    forall k | 0 <= k < |es| ensures DrawableEventShape(b, camera, es[k]) {
      EventOrigin(b, camera, ds, assets, glam, k);
      var j, o :| 0 <= j < |ds| && 0 <= o < |DrawableEvents(b, camera, ds[j], assets, glam)| &&
                  es[k] == DrawableEvents(b, camera, ds[j], assets, glam)[o];
      DrawableEventsShape(b, camera, ds[j], assets, glam, o);
    }
  }

  /** A frame opens with one Clear and then one camera upload, and neither occurs again. */
  lemma FrameOrder(b: Buffers, ds: seq<Drawable>, camera: Camera, assets: Assets, glam: Glam,
                   width: u32, height: u32)
    ensures var f := FrameEvents(b, ds, camera, assets, glam, width, height);
      && |f| >= 2 && f[0] == Event.Clear && f[1] == CameraUniform(CameraMatrix(camera, glam, width, height))
      && forall k :: 2 <= k < |f| ==> !f[k].Clear? && !f[k].CameraUniform?
  {
    var m := CameraMatrix(camera, glam, width, height);
    var es := DrawablesEvents(b, Some(m), ds, assets, glam);
    DrawablesEventsShape(b, Some(m), ds, assets, glam);
    var f := [Event.Clear, CameraUniform(m)] + es;
    forall k | 2 <= k < |f| ensures !f[k].Clear? && !f[k].CameraUniform? {
      assert f[k] == es[k - 2];
    }
  }

  /** Every draw of a frame draws as many indices as the narrowed index data holds, with
      the frame's camera matrix. */
  lemma DrawCountIsIndexCount(b: Buffers, ds: seq<Drawable>, camera: Camera, assets: Assets, glam: Glam,
                              width: u32, height: u32)
    ensures var f := FrameEvents(b, ds, camera, assets, glam, width, height);
      forall k :: 0 <= k < |f| && f[k].Draw? ==>
        && f[k].indices.Shorts? && f[k].count == AsI32(|f[k].indices.shorts|)
        && f[k].cameraSeen == Some(CameraMatrix(camera, glam, width, height))
  {
    var m := CameraMatrix(camera, glam, width, height);
    var es := DrawablesEvents(b, Some(m), ds, assets, glam);
    DrawablesEventsShape(b, Some(m), ds, assets, glam);
    var f := [Event.Clear, CameraUniform(m)] + es;
    forall k | 2 <= k < |f| ensures f[k] == es[k - 2] {
    }
  }

  /** A frame uploads into none but the three shared buffers. */
  lemma OnlySharedBuffersWritten(b: Buffers, ds: seq<Drawable>, camera: Camera, assets: Assets, glam: Glam,
                                 width: u32, height: u32)
    ensures var f := FrameEvents(b, ds, camera, assets, glam, width, height);
      forall k :: 0 <= k < |f| && f[k].BufferUpload? ==>
        f[k].buffer == b.position || f[k].buffer == b.uv || f[k].buffer == b.index
  {
    var m := CameraMatrix(camera, glam, width, height);
    var es := DrawablesEvents(b, Some(m), ds, assets, glam);
    DrawablesEventsShape(b, Some(m), ds, assets, glam);
    var f := [Event.Clear, CameraUniform(m)] + es;
    forall k | 2 <= k < |f| ensures f[k] == es[k - 2] {
    }
  }

  /** If event k of `es` is a draw, it is immediately preceded by a texture upload, the
      uploads of exactly the position, UV and index data it reads into the three shared
      buffers, and the upload of the model matrix it sees. */
  predicate Fed(b: Buffers, es: seq<Event>, k: nat)
    requires k < |es|
  {
    es[k].Draw? ==>
      && 5 <= k && es[k].modelSeen.Some?
      && es[k - 5].TextureUpload?
      && es[k - 4] == BufferUpload(b.position, es[k].positions)
      && es[k - 3] == BufferUpload(b.uv, es[k].uvs)
      && es[k - 2] == BufferUpload(b.index, es[k].indices)
      && es[k - 1] == ModelUniform(es[k].modelSeen.value)
  }

  /** Every event of `es` is fed. */
  ghost predicate AllFed(b: Buffers, es: seq<Event>)
  {
    forall k :: 0 <= k < |es| ==> Fed(b, es, k)
  }

  lemma DrawableFed(b: Buffers, camera: Option<Mat4>, d: Drawable, assets: Assets, glam: Glam)
    ensures AllFed(b, DrawableEvents(b, camera, d, assets, glam))
  {
  }

  /** Fed is about the five events before a draw, so it survives concatenation. */
  lemma FedConcat(b: Buffers, pre: seq<Event>, es: seq<Event>)
    requires AllFed(b, pre) && AllFed(b, es)
    ensures AllFed(b, pre + es)
  {
    var all := pre + es;
    forall k | 0 <= k < |all| ensures Fed(b, all, k) {
      if k < |pre| {
        assert Fed(b, pre, k);
        assert forall n :: 0 <= n < |pre| ==> all[n] == pre[n];
      } else {
        assert Fed(b, es, k - |pre|);
        assert forall n :: 0 <= n < |es| ==> all[|pre| + n] == es[n];
      }
    }
  }

  /** Every draw of the drawables is fed by the five events before it. */
  lemma {:induction false} DrawsFed(b: Buffers, camera: Option<Mat4>, ds: seq<Drawable>, assets: Assets, glam: Glam)
    ensures AllFed(b, DrawablesEvents(b, camera, ds, assets, glam))
  {
    if ds != [] {
      var init, d := ds[..|ds| - 1], ds[|ds| - 1];
      DrawsFed(b, camera, init, assets, glam);
      DrawableFed(b, camera, d, assets, glam);
      FedConcat(b, DrawablesEvents(b, camera, init, assets, glam), DrawableEvents(b, camera, d, assets, glam));
    }
  }

  /** Every draw of a frame is fed by the five events before it. */
  lemma FrameDrawsFed(b: Buffers, ds: seq<Drawable>, camera: Camera, assets: Assets, glam: Glam,
                      width: u32, height: u32)
    ensures AllFed(b, FrameEvents(b, ds, camera, assets, glam, width, height))
  {
    var m := CameraMatrix(camera, glam, width, height);
    DrawsFed(b, Some(m), ds, assets, glam);
    FedConcat(b, [Event.Clear, CameraUniform(m)], DrawablesEvents(b, Some(m), ds, assets, glam));
  }

  /** The draws the drawables that reach the draw call must issue, in order. */
  function DrawsOf(drawn: seq<Drawn>, camera: Option<Mat4>): seq<Event>
  {
    seq(|drawn|, i requires 0 <= i < |drawn| => DrawEvent(drawn[i].upload, camera, drawn[i].model))
  }

  /** One drawable contributes at most its own draw. */
  lemma DrawableDraws(b: Buffers, camera: Option<Mat4>, d: Drawable, assets: Assets, glam: Glam)
    ensures Select(DrawableEvents(b, camera, d, assets, glam), IsDraw) == DrawsOf(DrawnBy(d, assets, glam), camera)
  {
    var es := DrawableEvents(b, camera, d, assets, glam);
    if Resolve(d, assets).Ready? {
      assert es == es[..5] + [es[5]];
      SelectAppend(es[..5], [es[5]], IsDraw);
      SelectNone(es[..5], IsDraw);
      assert Select([es[5]], IsDraw) == [es[5]];
    } else {
      SelectNone(es, IsDraw);
    }
  }

  /** The draws of the drawables are, one for one and in order, the draws of the drawables
      that reach the draw call: each reads exactly its own mesh's data and its own model matrix. */
  lemma {:induction false} DrawsInOrder(b: Buffers, camera: Option<Mat4>, ds: seq<Drawable>, assets: Assets, glam: Glam)
    ensures Select(DrawablesEvents(b, camera, ds, assets, glam), IsDraw) == DrawsOf(DrawnMeshes(ds, assets, glam), camera)
  {
    if ds != [] {
      var init, d := ds[..|ds| - 1], ds[|ds| - 1];
      DrawsInOrder(b, camera, init, assets, glam);
      SelectAppend(DrawablesEvents(b, camera, init, assets, glam), DrawableEvents(b, camera, d, assets, glam), IsDraw);
      DrawableDraws(b, camera, d, assets, glam);
      DrawsOfAppend(DrawnMeshes(init, assets, glam), DrawnBy(d, assets, glam), camera);
    }
  }

  lemma DrawsOfAppend(x: seq<Drawn>, y: seq<Drawn>, camera: Option<Mat4>)
    ensures DrawsOf(x + y, camera) == DrawsOf(x, camera) + DrawsOf(y, camera)
  {
    assert forall i :: 0 <= i < |y| ==> (x + y)[|x| + i] == y[i];
  }

  /** Frame form of DrawsInOrder. */
  lemma FrameDrawsInOrder(b: Buffers, ds: seq<Drawable>, camera: Camera, assets: Assets, glam: Glam,
                          width: u32, height: u32)
    ensures Select(FrameEvents(b, ds, camera, assets, glam, width, height), IsDraw) ==
            DrawsOf(DrawnMeshes(ds, assets, glam), Some(CameraMatrix(camera, glam, width, height)))
  {
    var m := CameraMatrix(camera, glam, width, height);
    var prefix := [Event.Clear, CameraUniform(m)];
    SelectAppend(prefix, DrawablesEvents(b, Some(m), ds, assets, glam), IsDraw);
    SelectNone(prefix, IsDraw);
    DrawsInOrder(b, Some(m), ds, assets, glam);
  }

  /** One drawable uploads its texture once when its material and image resolve, else never. */
  lemma DrawableTextures(b: Buffers, camera: Option<Mat4>, d: Drawable, assets: Assets, glam: Glam)
    ensures |Select(DrawableEvents(b, camera, d, assets, glam), IsTextureUpload)| ==
            if Textured(d, assets) then 1 else 0
  {
    var es := DrawableEvents(b, camera, d, assets, glam);
    if Textured(d, assets) {
      assert es == [es[0]] + es[1..];
      SelectAppend([es[0]], es[1..], IsTextureUpload);
      SelectNone(es[1..], IsTextureUpload);
      assert Select([es[0]], IsTextureUpload) == [es[0]];
    } else {
      SelectNone(es, IsTextureUpload);
    }
  }

  /** One texture upload per drawable whose material and image resolve. */
  lemma {:induction false} TextureUploadsCounted(b: Buffers, camera: Option<Mat4>, ds: seq<Drawable>,
                                                 assets: Assets, glam: Glam)
    ensures |Select(DrawablesEvents(b, camera, ds, assets, glam), IsTextureUpload)| == TexturedCount(ds, assets)
  {
    if ds != [] {
      var init, d := ds[..|ds| - 1], ds[|ds| - 1];
      TextureUploadsCounted(b, camera, init, assets, glam);
      SelectAppend(DrawablesEvents(b, camera, init, assets, glam), DrawableEvents(b, camera, d, assets, glam),
                   IsTextureUpload);
      DrawableTextures(b, camera, d, assets, glam);
    }
  }

  lemma {:induction false} ConcatEvents(b: Buffers, camera: Option<Mat4>, a: seq<Drawable>, c: seq<Drawable>,
                                        assets: Assets, glam: Glam)
    ensures DrawablesEvents(b, camera, a + c, assets, glam) ==
            DrawablesEvents(b, camera, a, assets, glam) + DrawablesEvents(b, camera, c, assets, glam)
  {
    if c == [] {
      assert a + c == a;
    } else {
      var init, d := c[..|c| - 1], c[|c| - 1];
      assert (a + c)[..|a + c| - 1] == a + init;
      assert (a + c)[|a + c| - 1] == d;
      ConcatEvents(b, camera, a, init, assets, glam);
      var ea, ei, ed := DrawablesEvents(b, camera, a, assets, glam), DrawablesEvents(b, camera, init, assets, glam),
                        DrawableEvents(b, camera, d, assets, glam);
      assert (ea + ei) + ed == ea + (ei + ed);
    }
  }

  lemma {:induction false} ConcatDrawn(a: seq<Drawable>, c: seq<Drawable>, assets: Assets, glam: Glam)
    ensures DrawnMeshes(a + c, assets, glam) == DrawnMeshes(a, assets, glam) + DrawnMeshes(c, assets, glam)
  {
    if c == [] {
      assert a + c == a;
    } else {
      var init, d := c[..|c| - 1], c[|c| - 1];
      assert (a + c)[..|a + c| - 1] == a + init;
      assert (a + c)[|a + c| - 1] == d;
      ConcatDrawn(a, init, assets, glam);
      var wa, wi, wd := DrawnMeshes(a, assets, glam), DrawnMeshes(init, assets, glam), DrawnBy(d, assets, glam);
      assert (wa + wi) + wd == wa + (wi + wd);
    }
  }

  lemma {:induction false} ConcatTextured(a: seq<Drawable>, c: seq<Drawable>, assets: Assets)
    ensures TexturedCount(a + c, assets) == TexturedCount(a, assets) + TexturedCount(c, assets)
  {
    if c == [] {
      assert a + c == a;
    } else {
      var init := c[..|c| - 1];
      assert (a + c)[..|a + c| - 1] == a + init;
      assert (a + c)[|a + c| - 1] == c[|c| - 1];
      ConcatTextured(a, init, assets);
    }
  }

  /** Removing a drawable that does not reach the texture upload changes no reference function. */
  lemma SkipEvents(b: Buffers, camera: Option<Mat4>, ds: seq<Drawable>, i: nat, assets: Assets, glam: Glam)
    requires i < |ds| && !Textured(ds[i], assets)
    ensures DrawablesEvents(b, camera, ds, assets, glam) == DrawablesEvents(b, camera, ds[..i] + ds[i + 1..], assets, glam)
  {
    var a, d, c := ds[..i], ds[i], ds[i + 1..];
    assert ds == (a + [d]) + c;
    ConcatEvents(b, camera, a + [d], c, assets, glam);
    ConcatEvents(b, camera, a, c, assets, glam);
    AppendOne(b, camera, a, d, assets, glam);
    assert DrawableEvents(b, camera, d, assets, glam) == [];
    assert DrawablesEvents(b, camera, a, assets, glam) + [] == DrawablesEvents(b, camera, a, assets, glam);
  }

  lemma SkipDrawn(ds: seq<Drawable>, i: nat, assets: Assets, glam: Glam)
    requires i < |ds| && !Textured(ds[i], assets)
    ensures DrawnMeshes(ds, assets, glam) == DrawnMeshes(ds[..i] + ds[i + 1..], assets, glam)
  {
    var a, d, c := ds[..i], ds[i], ds[i + 1..];
    assert ds == (a + [d]) + c;
    ConcatDrawn(a + [d], c, assets, glam);
    ConcatDrawn(a, c, assets, glam);
    assert (a + [d])[..|a|] == a;
    assert DrawnBy(d, assets, glam) == [];
    assert DrawnMeshes(a, assets, glam) + [] == DrawnMeshes(a, assets, glam);
  }

  lemma SkipTextured(ds: seq<Drawable>, i: nat, assets: Assets)
    requires i < |ds| && !Textured(ds[i], assets)
    ensures TexturedCount(ds, assets) == TexturedCount(ds[..i] + ds[i + 1..], assets)
  {
    var a, d, c := ds[..i], ds[i], ds[i + 1..];
    assert ds == (a + [d]) + c;
    ConcatTextured(a + [d], c, assets);
    ConcatTextured(a, c, assets);
    assert (a + [d])[..|a|] == a;
  }

  /** A drawable whose material or base-colour image is missing leaves the frame exactly as if
      it were not there: the loop moves on to the next drawable. */
  lemma SkipIsRemoval(s: State, b: Buffers, ds: seq<Drawable>, i: nat, assets: Assets, glam: Glam)
    requires Fits(b, |s.buffers|) && i < |ds|
    requires var d := ds[i];
      || d.material !in assets.materials
      || (assets.materials[d.material].baseColorTexture.Some? &&
          assets.materials[d.material].baseColorTexture.value !in assets.images)
    ensures Expected(s, b, ds, assets, glam) == Expected(s, b, ds[..i] + ds[i + 1..], assets, glam)
  {
    SkipEvents(b, s.cameraUniform, ds, i, assets, glam);
    SkipDrawn(ds, i, assets, glam);
    SkipTextured(ds, i, assets);
  }

  /** A drawable whose material and image resolve but whose mesh is missing uploads its
      texture and changes nothing else. */
  lemma MissingMeshUploadsTextureOnly(s: State, b: Buffers, d: Drawable, assets: Assets, glam: Glam)
    requires Fits(b, |s.buffers|)
    requires d.material in assets.materials && assets.materials[d.material].baseColorTexture.Some?
    requires assets.materials[d.material].baseColorTexture.value in assets.images
    requires d.mesh !in assets.meshes
    ensures var image := assets.images[assets.materials[d.material].baseColorTexture.value];
      Step(s, b, d, assets, glam) ==
      s.(textures := s.textures + 1, log := s.log + [TextureUpload(image.width, image.height, image.data)])
  {
  }
}
