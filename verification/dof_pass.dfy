/** The depth-of-field pass: it renders the scene twice, once with the depth
    material into a depth target and once as it is into a color target, then draws
    the bokeh composite of the two to the screen or to the write buffer. */
module Dof {
  import opened Wrappers
  import opened RenderCore

  /** A target of exactly the size's width by its height. */
  function SizedTarget(id: nat, size: Size): (t: Target)
    ensures t.id == id && t.width == Some(size.width) && t.height == Some(size.height)
  {
    Target(id, Some(size.width), Some(size.height))
  }

  /** The draws of one frame: the scene through the camera into `depth` with the depth
      material, the scene again into `color` with no override, then the composite quad
      to the screen or to `writeBuffer`. The lights are passed on as given. */
  function DofFrame(cam: Camera, lights: Option<seq<Light>>, depth: Option<Target>, color: Option<Target>,
                    toScreen: bool, writeBuffer: Target, clear: bool): (ds: seq<Draw>)
    ensures |ds| == 3
    ensures ds[0].source == RenderList && ds[0].view == SceneView(cam) && ds[0].target == depth
    ensures ds[0].overrideMaterial == Some(DepthMaterial)
    ensures ds[1].source == RenderList && ds[1].view == SceneView(cam) && ds[1].target == color
    ensures ds[1].overrideMaterial.None?
    ensures ds[0].lights == ds[1].lights == lights
    ensures ds[2].source == Quad(DofComposite) && ds[2].view == FullscreenView && ds[2].lights == Some([])
    ensures ds[2].overrideMaterial.None?
    ensures ds[2].target.None? <==> toScreen
    ensures !toScreen ==> ds[2].target == Some(writeBuffer)
    ensures forall i :: 0 <= i < 3 ==> ds[i].clear == clear
  {
    [ Draw(RenderList, SceneView(cam), lights, depth, clear, Some(DepthMaterial)),
      Draw(RenderList, SceneView(cam), lights, color, clear, None),
      Draw(Quad(DofComposite), FullscreenView, Some([]), if toScreen then None else Some(writeBuffer), clear, None) ]
  }

  class DOFRenderPass {
    const gpu: Gpu
    var renderToScreen: bool
    var clear: bool
    var enabled: bool
    var needsSwap: bool
    var aspect: real
    var depthTarget: Option<Target>
    var colorTarget: Option<Target>
    /** The composite material's texture bindings. */
    var textures: map<string, Option<Target>>

    /** The targets come and go in pairs, and were handed out by this pass's GPU. */
    predicate Valid()
      reads this, gpu
    {
      && gpu.Valid()
      && (depthTarget.Some? <==> colorTarget.Some?)
      && (depthTarget.Some? ==> depthTarget.value.id < gpu.nextId && colorTarget.value.id < gpu.nextId)
    }

    /** `new DOFRenderPass(args, ctx, goo)`: the flags, then targets sized to the
        viewport. */
    constructor(gpu: Gpu, viewport: Size)
      requires gpu.Valid()
      modifies gpu
      ensures Valid() && this.gpu == gpu
      ensures renderToScreen && clear && enabled && needsSwap && aspect == 0.0
      ensures depthTarget == Some(SizedTarget(old(gpu.nextId), viewport))
      ensures colorTarget == Some(SizedTarget(old(gpu.nextId) + 1, viewport))
      ensures gpu.log == old(gpu.log) + [Created(depthTarget.value), Created(colorTarget.value)]
      ensures gpu.nextId == old(gpu.nextId) + 2
      ensures textures == map[]
    {
      this.gpu := gpu;
      renderToScreen := true;
      clear := true;
      enabled := true;
      needsSwap := true;
      aspect := 0.0;
      depthTarget := None;
      colorTarget := None;
      textures := map[];
      new;
      UpdateSize(viewport);
    }

    /** `updateSize(size, renderer)`: the old targets, when there is a depth target, are
        released through `destroy`; two new targets of the size follow, whatever the
        size was before. */
    method UpdateSize(size: Size)
      requires Valid()
      modifies this`depthTarget, this`colorTarget, gpu
      ensures Valid()
      ensures depthTarget == Some(SizedTarget(old(gpu.nextId), size))
      ensures colorTarget == Some(SizedTarget(old(gpu.nextId) + 1, size))
      ensures gpu.log == old(gpu.log) + Releases(old(depthTarget), old(colorTarget)) + [Created(depthTarget.value), Created(colorTarget.value)]
      ensures Live(gpu.log) == (Live(old(gpu.log)) - HeldIds(old(depthTarget), old(colorTarget))) + {old(gpu.nextId)} + {old(gpu.nextId) + 1}
      ensures gpu.nextId == old(gpu.nextId) + 2
    {
      if depthTarget.Some? {
        var threw := Destroy();
      }
      ghost var live1 := Live(gpu.log);
      assert live1 == Live(old(gpu.log)) - HeldIds(old(depthTarget), old(colorTarget));
      var depth := gpu.CreateTarget(Some(size.width), Some(size.height));
      var color := gpu.CreateTarget(Some(size.width), Some(size.height));
      depthTarget := Some(depth);
      colorTarget := Some(color);
    }

    /** `destroy(renderer)`: releases both targets and keeps the fields pointing at
        them; with no depth target it throws a TypeError (`threw`). */
    method Destroy() returns (threw: bool)
      requires Valid()
      modifies gpu
      ensures Valid()
      ensures threw <==> depthTarget.None?
      ensures threw ==> gpu.log == old(gpu.log)
      ensures !threw ==>
        && gpu.log == old(gpu.log) + Releases(depthTarget, colorTarget)
        && Live(gpu.log) == Live(old(gpu.log)) - HeldIds(depthTarget, colorTarget)
      ensures gpu.nextId == old(gpu.nextId)
    {
      if depthTarget.None? {
        return true;
      }
      gpu.DestroyTarget(depthTarget.value);
      gpu.DestroyTarget(colorTarget.value);
      threw := false;
    }

    /** `render(renderer, writeBuffer, readBuffer, delta, maskActive, camera, lights)`:
        nothing without a camera; otherwise the depth and color draws, the texture
        bindings, and the composite. */
    method Render(renderer: Renderer, writeBuffer: Target, camera: Option<Camera>, mainCamera: Option<Camera>, lights: Option<seq<Light>>)
      modifies renderer, this`textures
      ensures PickCamera(camera, mainCamera).None? ==> renderer.draws == old(renderer.draws) && textures == old(textures)
      ensures PickCamera(camera, mainCamera).Some? ==>
        && renderer.draws == old(renderer.draws) + DofFrame(
             PickCamera(camera, mainCamera).value, lights, depthTarget, colorTarget, renderToScreen, writeBuffer, clear)
        && textures == old(textures)["DIFFUSE_MAP" := colorTarget]["DEPTH_MAP" := depthTarget]
    {
      var picked := PickCamera(camera, mainCamera);
      if picked.None? {
        return;
      }
      var cam := picked.value;
      renderer.Render(Draw(RenderList, SceneView(cam), lights, depthTarget, clear, Some(DepthMaterial)));
      renderer.Render(Draw(RenderList, SceneView(cam), lights, colorTarget, clear, None));
      textures := textures["DIFFUSE_MAP" := colorTarget]["DEPTH_MAP" := depthTarget];
      if renderToScreen {
        renderer.Render(Draw(Quad(DofComposite), FullscreenView, Some([]), None, clear, None));
      } else {
        renderer.Render(Draw(Quad(DofComposite), FullscreenView, Some([]), Some(writeBuffer), clear, None));
      }
    }
  }

  /** Resizing to the size the pass already has still releases both targets and
      creates two new ones. */
  method SameSizeRebuilds(viewport: Size) returns (events: seq<GpuEvent>)
    ensures events == [ Destroyed(SizedTarget(0, viewport)), Destroyed(SizedTarget(1, viewport)),
                        Created(SizedTarget(2, viewport)), Created(SizedTarget(3, viewport)) ]
  {
    var gpu := new Gpu();
    var pass := new DOFRenderPass(gpu, viewport);
    var before := gpu.log;
    var d, c := pass.depthTarget.value, pass.colorTarget.value;
    pass.UpdateSize(viewport);
    assert gpu.log == before + [Destroyed(d), Destroyed(c)] + [Created(pass.depthTarget.value), Created(pass.colorTarget.value)];
    events := gpu.log[|before|..];
  }

  /** `destroy` followed by `updateSize` releases each of the first two targets twice. */
  method DestroyThenResize(viewport: Size, size: Size) returns (log: seq<GpuEvent>)
    ensures log == [ Created(SizedTarget(0, viewport)), Created(SizedTarget(1, viewport)),
                     Destroyed(SizedTarget(0, viewport)), Destroyed(SizedTarget(1, viewport)),
                     Destroyed(SizedTarget(0, viewport)), Destroyed(SizedTarget(1, viewport)),
                     Created(SizedTarget(2, size)), Created(SizedTarget(3, size)) ]
    ensures multiset(log)[Destroyed(SizedTarget(0, viewport))] == 2
  {
    var gpu := new Gpu();
    var pass := new DOFRenderPass(gpu, viewport);
    var d, c := pass.depthTarget.value, pass.colorTarget.value;
    var threw := pass.Destroy();
    assert gpu.log == [Created(d), Created(c), Destroyed(d), Destroyed(c)];
    pass.UpdateSize(size);
    assert gpu.log == [Created(d), Created(c), Destroyed(d), Destroyed(c)] + [Destroyed(d), Destroyed(c)]
                      + [Created(pass.depthTarget.value), Created(pass.colorTarget.value)];
    log := gpu.log;
  }
}
