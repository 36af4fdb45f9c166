/** The Oculus Rift pass: it renders the scene once per eye into two render targets
    enlarged by the distortion compensation scale, then draws the lens-distortion
    composite of the two to the screen or to the write buffer. */
module Rift {
  import opened Wrappers
  import opened RenderCore

  /** `_dc`, the distortion compensation scale of the eye targets. */
  const DistortionScale: real := 1.8

  /** The first component of the `scaleIn` uniform; a zero height makes it a
      non-finite number. */
  datatype Ratio = Finite(value: real) | NonFinite

  /** `size.width * 0.5 / size.height`: the aspect of one eye's half of the view. */
  function EyeAspect(size: Size): (r: Ratio)
    ensures r.Finite? <==> size.height != 0.0
    ensures r.Finite? ==> r.value * size.height == size.width * 0.5
  {
    if size.height != 0.0 then Finite(size.width * 0.5 / size.height) else NonFinite
  }

  /** `args.boost3D || 1`: a missing or zero boost counts as 1. */
  function Boost(boost3D: Option<real>): (b: real)
    ensures b != 0.0
    ensures boost3D.Some? && boost3D.value != 0.0 ==> b == boost3D.value
    ensures boost3D.None? ==> b == 1.0
  {
    if boost3D.Some? && boost3D.value != 0.0 then boost3D.value else 1.0
  }

  /** An eye target for a view of `size`: half its width by its height, both scaled
      by `_dc`. */
  function EyeTarget(id: nat, size: Size): (t: Target)
    ensures t.id == id
    ensures t.width == Some(0.9 * size.width) && t.height == Some(1.8 * size.height)
  {
    Target(id, Some(size.width * 0.5 * DistortionScale), Some(size.height * DistortionScale))
  }

  /** The part of the headset configuration `updateConfig` uses outside the shader
      uniforms: `fov` is `config.FOV`, and the other three fields are
      `config.interpupillaryDistance`, `config.hResolution` and `config.vResolution`. */
  datatype RiftConfig = RiftConfig(fov: real, interpupillaryDistance: real, hResolution: real, vResolution: real)

  class RiftRenderPass {
    const gpu: Gpu
    var renderToScreen: bool
    var clear: bool
    var enabled: bool
    var needsSwap: bool
    var eyeOffset: real
    var fov: real
    var width: Option<real>
    var height: Option<real>
    var leftTarget: Option<Target>
    var rightTarget: Option<Target>
    var scaleIn: Ratio
    var boost: real
    /** The composite material's texture bindings. */
    var textures: map<string, Option<Target>>

    /** The targets come and go in pairs, and were handed out by this pass's GPU. */
    predicate Valid()
      reads this, gpu
    {
      && gpu.Valid()
      && (leftTarget.Some? <==> rightTarget.Some?)
      && (leftTarget.Some? ==> leftTarget.value.id < gpu.nextId && rightTarget.value.id < gpu.nextId)
    }

    /** `new RiftRenderPass(args, ctx, goo)`: the eye targets are sized to the
        viewport, then `setup` reads the boost. */
    constructor(gpu: Gpu, viewport: Size, boost3D: Option<real>)
      requires gpu.Valid()
      modifies gpu
      ensures Valid() && this.gpu == gpu
      ensures !renderToScreen && clear && enabled && needsSwap
      ensures eyeOffset == 0.4 && fov == 100.0 && boost == Boost(boost3D)
      ensures width == Some(viewport.width) && height == Some(viewport.height)
      ensures leftTarget == Some(EyeTarget(old(gpu.nextId), viewport))
      ensures rightTarget == Some(EyeTarget(old(gpu.nextId) + 1, viewport))
      ensures gpu.log == old(gpu.log) + [Created(leftTarget.value), Created(rightTarget.value)]
      ensures gpu.nextId == old(gpu.nextId) + 2
      ensures scaleIn == EyeAspect(viewport) && textures == map[]
    {
      this.gpu := gpu;
      renderToScreen := false;
      clear := true;
      enabled := true;
      needsSwap := true;
      eyeOffset := 0.4;
      fov := 100.0;
      width := None;
      height := None;
      leftTarget := None;
      rightTarget := None;
      scaleIn := Finite(1.0);
      boost := 1.0;
      textures := map[];
      new;
      UpdateSize(viewport);
      Setup(boost3D);
    }

    /** `setup(args)` */
    method Setup(boost3D: Option<real>)
      modifies this`boost
      ensures boost == Boost(boost3D)
    {
      boost := Boost(boost3D);
    }

    /** `updateSize(size)`: `scaleIn` is always rewritten; the remembered size makes
        the rest a no-op; otherwise the old targets (if any) are released before two
        new ones are created. */
    method UpdateSize(size: Size)
      requires Valid()
      modifies this`width, this`height, this`leftTarget, this`rightTarget, this`scaleIn, gpu
      ensures Valid()
      ensures scaleIn == EyeAspect(size)
      ensures width == Some(size.width) && height == Some(size.height)
      ensures old(width) == Some(size.width) && old(height) == Some(size.height) ==>
        && leftTarget == old(leftTarget) && rightTarget == old(rightTarget)
        && gpu.log == old(gpu.log) && gpu.nextId == old(gpu.nextId)
      ensures !(old(width) == Some(size.width) && old(height) == Some(size.height)) ==>
        && leftTarget == Some(EyeTarget(old(gpu.nextId), size))
        && rightTarget == Some(EyeTarget(old(gpu.nextId) + 1, size))
        && gpu.log == old(gpu.log) + Releases(old(leftTarget), old(rightTarget)) + [Created(leftTarget.value), Created(rightTarget.value)]
        && Live(gpu.log) == (Live(old(gpu.log)) - HeldIds(old(leftTarget), old(rightTarget))) + {old(gpu.nextId)} + {old(gpu.nextId) + 1}
        && gpu.nextId == old(gpu.nextId) + 2
    {
      scaleIn := EyeAspect(size);
      if width == Some(size.width) && height == Some(size.height) {
        return;
      }
      width := Some(size.width);
      height := Some(size.height);
      gpu.ReleasePair(leftTarget, rightTarget);
      var eye := EyeTarget(gpu.nextId, size);
      var left, right := gpu.CreatePair(eye.width, eye.height);
      leftTarget := Some(left);
      rightTarget := Some(right);
    }

    /** `destroy(renderer)`: releases both targets and forgets them; with no targets
        it throws a TypeError (`threw`) and changes nothing. */
    method Destroy() returns (threw: bool)
      requires Valid()
      modifies this`leftTarget, this`rightTarget, gpu
      ensures Valid()
      ensures threw <==> old(leftTarget).None?
      ensures threw ==> leftTarget == old(leftTarget) && rightTarget == old(rightTarget) && gpu.log == old(gpu.log)
      ensures !threw ==>
        && leftTarget.None? && rightTarget.None?
        && gpu.log == old(gpu.log) + [Destroyed(old(leftTarget).value), Destroyed(old(rightTarget).value)]
        && Live(gpu.log) == Live(old(gpu.log)) - HeldIds(old(leftTarget), old(rightTarget))
      ensures gpu.nextId == old(gpu.nextId)
    {
      if leftTarget.None? {
        return true;
      }
      gpu.DestroyTarget(leftTarget.value);
      gpu.DestroyTarget(rightTarget.value);
      leftTarget := None;
      rightTarget := None;
      threw := false;
    }

    /** `updateConfig(config)`, without the lens uniforms: the field of view, the eye
        offset (the interpupillary distance times the boost) and a resize to the
        headset resolution. */
    method UpdateConfig(config: RiftConfig)
      requires Valid()
      modifies this`fov, this`eyeOffset, this`width, this`height, this`leftTarget, this`rightTarget, this`scaleIn, gpu
      ensures Valid()
      ensures fov == config.fov && eyeOffset == config.interpupillaryDistance * boost
      ensures width == Some(config.hResolution) && height == Some(config.vResolution)
      ensures scaleIn == EyeAspect(Size(config.hResolution, config.vResolution))
      ensures old(width) == Some(config.hResolution) && old(height) == Some(config.vResolution) ==>
        && leftTarget == old(leftTarget) && rightTarget == old(rightTarget)
        && gpu.log == old(gpu.log) && gpu.nextId == old(gpu.nextId)
      ensures !(old(width) == Some(config.hResolution) && old(height) == Some(config.vResolution)) ==>
        && leftTarget == Some(EyeTarget(old(gpu.nextId), Size(config.hResolution, config.vResolution)))
        && rightTarget == Some(EyeTarget(old(gpu.nextId) + 1, Size(config.hResolution, config.vResolution)))
        && gpu.log == old(gpu.log) + Releases(old(leftTarget), old(rightTarget)) + [Created(leftTarget.value), Created(rightTarget.value)]
        && Live(gpu.log) == (Live(old(gpu.log)) - HeldIds(old(leftTarget), old(rightTarget))) + {old(gpu.nextId)} + {old(gpu.nextId) + 1}
        && gpu.nextId == old(gpu.nextId) + 2
    {
      fov := config.fov;
      eyeOffset := config.interpupillaryDistance * boost;
      UpdateSize(Size(config.hResolution, config.vResolution));
    }

    /** `render(renderer, writeBuffer, readBuffer, delta, maskActive, camera, lights)`:
        nothing without a camera; otherwise the two eyes, with the pass's field of view
        and a square aspect, then the composite. */
    method Render(renderer: Renderer, writeBuffer: Target, camera: Option<Camera>, mainCamera: Option<Camera>, lights: Option<seq<Light>>)
      modifies renderer, this`textures
      ensures PickCamera(camera, mainCamera).None? ==> renderer.draws == old(renderer.draws) && textures == old(textures)
      ensures PickCamera(camera, mainCamera).Some? ==>
        && renderer.draws == old(renderer.draws) + StereoFrame(
             PickCamera(camera, mainCamera).value.(fov := fov, aspect := 1.0), eyeOffset, lights.GetOr([]),
             leftTarget, rightTarget, renderToScreen, writeBuffer, clear, RiftComposite)
        && textures == old(textures)["LEFT_TEX" := leftTarget]["RIGHT_TEX" := rightTarget]
    {
      var picked := PickCamera(camera, mainCamera);
      if picked.None? {
        return;
      }
      var cam := picked.value.(fov := fov, aspect := 1.0);
      var sceneLights := lights.GetOr([]);
      renderer.Render(Draw(RenderList, SceneView(LeftEye(cam, eyeOffset)), Some(sceneLights), leftTarget, clear, None));
      renderer.Render(Draw(RenderList, SceneView(RightEye(cam, eyeOffset)), Some(sceneLights), rightTarget, clear, None));
      textures := textures["LEFT_TEX" := leftTarget]["RIGHT_TEX" := rightTarget];
      if renderToScreen {
        renderer.Render(Draw(Quad(RiftComposite), FullscreenView, Some([]), None, clear, None));
      } else {
        renderer.Render(Draw(Quad(RiftComposite), FullscreenView, Some([]), Some(writeBuffer), clear, None));
      }
    }
  }

  /** A second resize to the same size creates and releases nothing. */
  method ResizeIsIdempotent(viewport: Size, size: Size) returns (createdOnce: seq<GpuEvent>, createdTwice: seq<GpuEvent>)
    ensures createdTwice == createdOnce
  {
    var gpu := new Gpu();
    var pass := new RiftRenderPass(gpu, viewport, None);
    pass.UpdateSize(size);
    createdOnce := gpu.log;
    pass.UpdateSize(size);
    createdTwice := gpu.log;
  }

  /** After `destroy`, a resize to the remembered size leaves the pass without
      targets, and the next frame draws both eyes straight to the screen. */
  method DestroyThenSameSize(viewport: Size, writeBuffer: Target, cam: Camera) returns (draws: seq<Draw>)
    ensures |draws| == 3 && draws[0].target.None? && draws[1].target.None?
  {
    var gpu := new Gpu();
    var pass := new RiftRenderPass(gpu, viewport, None);
    var threw := pass.Destroy();
    pass.UpdateSize(viewport);
    var renderer := new Renderer();
    pass.Render(renderer, writeBuffer, Some(cam), None, None);
    draws := renderer.draws;
  }

  /** A second `destroy` throws. */
  method DestroyTwiceThrows(viewport: Size) returns (first: bool, second: bool)
    ensures !first && second
  {
    var gpu := new Gpu();
    var pass := new RiftRenderPass(gpu, viewport, None);
    first := pass.Destroy();
    second := pass.Destroy();
  }
}
