/** The anaglyph ("3D goggles") pass: it renders the scene once per eye into two
    render targets, then draws a composite that tints each eye with its own color. */
module Goggle {
  import opened Wrappers
  import opened RenderCore

  datatype Color = Color(r: real, g: real, b: real)

  /** The initial values of the composite shader's color uniforms. */
  const ShaderLeftColor: Color := Color(1.0, 0.0, 0.0)
  const ShaderRightColor: Color := Color(0.0, 1.0, 0.0)

  /** A declared parameter default: a number or a color. */
  datatype ParamValue = Scalar(x: real) | Tint(c: Color)

  datatype Parameter = Parameter(key: string, default: ParamValue)

  /** `GoggleRenderPass.parameters`, without the slider and control metadata. */
  const Parameters: seq<Parameter> := [
    Parameter("eyeDistance", Scalar(0.1)),
    Parameter("screenDistance", Scalar(15.0)),
    Parameter("leftColor", Tint(Color(1.0, 1.0, 0.0))),
    Parameter("rightColor", Tint(Color(0.0, 0.0, 1.0)))
  ]

  /** The `args` of `setup`; a missing entry is `None`. */
  datatype GoggleArgs = GoggleArgs(
    eyeDistance: Option<real>,
    screenDistance: Option<real>,
    leftColor: Option<Color>,
    rightColor: Option<Color>)

  /** `d / 2 || 0.0`: half the distance, and 0 when it is missing (NaN) or zero. */
  function HalfOrZero(d: Option<real>): (r: real)
    ensures d.Some? ==> r == d.value / 2.0
    ensures d.None? ==> r == 0.0
  {
    if d.Some? && d.value / 2.0 != 0.0 then d.value / 2.0 else 0.0
  }

  class GoggleRenderPass {
    const gpu: Gpu
    var renderToScreen: bool
    var clear: bool
    var enabled: bool
    var needsSwap: bool
    var eyeOffset: real
    var leftTarget: Option<Target>
    var rightTarget: Option<Target>
    /** The composite material's uniforms and texture bindings. */
    var screenOffset: real
    var leftColor: Color
    var rightColor: Color
    var textures: map<string, Option<Target>>

    /** The targets come and go in pairs, and were handed out by this pass's GPU. */
    predicate Valid()
      reads this, gpu
    {
      && gpu.Valid()
      && (leftTarget.Some? <==> rightTarget.Some?)
      && (leftTarget.Some? ==> leftTarget.value.id < gpu.nextId && rightTarget.value.id < gpu.nextId)
    }

    /** `new GoggleRenderPass(args, ctx, goo)`: the flags, eye targets from
        `updateSize(ctx.viewportWidth, ctx.viewportHeight)` (a bare number, so both
        dimensions are undefined), the composite with its shader's initial uniforms,
        then `setup(args)`. */
    constructor(gpu: Gpu, viewportWidth: real, viewportHeight: real, args: GoggleArgs)
      requires gpu.Valid()
      modifies gpu
      ensures Valid() && this.gpu == gpu
      ensures !renderToScreen && clear && enabled && needsSwap
      ensures leftTarget == Some(Target(old(gpu.nextId), None, None))
      ensures rightTarget == Some(Target(old(gpu.nextId) + 1, None, None))
      ensures gpu.log == old(gpu.log) + [Created(leftTarget.value), Created(rightTarget.value)]
      ensures gpu.nextId == old(gpu.nextId) + 2
      ensures Live(gpu.log) == Live(old(gpu.log)) + {old(gpu.nextId)} + {old(gpu.nextId) + 1}
      ensures eyeOffset == HalfOrZero(args.eyeDistance) && screenOffset == HalfOrZero(args.screenDistance)
      ensures leftColor == args.leftColor.GetOr(Color(1.0, 1.0, 0.0))
      ensures rightColor == args.rightColor.GetOr(Color(0.0, 0.0, 1.0))
      ensures textures == map[]
    {
      this.gpu := gpu;
      renderToScreen := false;
      clear := true;
      enabled := true;
      needsSwap := true;
      eyeOffset := 0.0;
      leftTarget := None;
      rightTarget := None;
      screenOffset := 0.0;
      leftColor := ShaderLeftColor;
      rightColor := ShaderRightColor;
      textures := map[];
      new;
      UpdateSize(Number(viewportWidth));
      Setup(args);
    }

    /** `setup(args)`: the eye offset and the screen offset are half the given
        distances, or 0; each color falls back to its declared default. */
    method Setup(args: GoggleArgs)
      modifies this`eyeOffset, this`screenOffset, this`leftColor, this`rightColor
      ensures eyeOffset == HalfOrZero(args.eyeDistance) && screenOffset == HalfOrZero(args.screenDistance)
      ensures leftColor == args.leftColor.GetOr(Color(1.0, 1.0, 0.0))
      ensures rightColor == args.rightColor.GetOr(Color(0.0, 0.0, 1.0))
    {
      eyeOffset := HalfOrZero(args.eyeDistance);
      screenOffset := HalfOrZero(args.screenDistance);
      leftColor := args.leftColor.GetOr(Color(1.0, 1.0, 0.0));
      rightColor := args.rightColor.GetOr(Color(0.0, 0.0, 1.0));
    }

    /** `updateSize(size)`: two new targets of `size.width` by `size.height` take the
        fields' place; the old ones are not released and stay live. */
    method UpdateSize(size: SizeArg)
      requires Valid()
      modifies this`leftTarget, this`rightTarget, gpu
      ensures Valid()
      ensures leftTarget == Some(Target(old(gpu.nextId), WidthOf(size), HeightOf(size)))
      ensures rightTarget == Some(Target(old(gpu.nextId) + 1, WidthOf(size), HeightOf(size)))
      ensures gpu.log == old(gpu.log) + [Created(leftTarget.value), Created(rightTarget.value)]
      ensures gpu.nextId == old(gpu.nextId) + 2
      ensures Live(gpu.log) == Live(old(gpu.log)) + {old(gpu.nextId)} + {old(gpu.nextId) + 1}
    {
      var left := gpu.CreateTarget(WidthOf(size), HeightOf(size));
      var right := gpu.CreateTarget(WidthOf(size), HeightOf(size));
      leftTarget := Some(left);
      rightTarget := Some(right);
    }

    /** `destroy(renderer)`: releases both targets and keeps the fields pointing at
        them; with no left target it throws a TypeError (`threw`). */
    method Destroy() returns (threw: bool)
      requires Valid()
      modifies gpu
      ensures Valid()
      ensures threw <==> leftTarget.None?
      ensures threw ==> gpu.log == old(gpu.log)
      ensures !threw ==>
        && gpu.log == old(gpu.log) + Releases(leftTarget, rightTarget)
        && Live(gpu.log) == Live(old(gpu.log)) - HeldIds(leftTarget, rightTarget)
      ensures gpu.nextId == old(gpu.nextId)
    {
      if leftTarget.None? {
        return true;
      }
      gpu.DestroyTarget(leftTarget.value);
      gpu.DestroyTarget(rightTarget.value);
      threw := false;
    }

    /** `render(renderer, writeBuffer, readBuffer, delta, maskActive, camera, lights)`:
        nothing without a camera (the fallback is the global `goo.Renderer.mainCamera`);
        otherwise the two eyes with the camera's own perspective, then the composite. */
    method Render(renderer: Renderer, writeBuffer: Target, camera: Option<Camera>, mainCamera: Option<Camera>, lights: Option<seq<Light>>)
      modifies renderer, this`textures
      ensures PickCamera(camera, mainCamera).None? ==> renderer.draws == old(renderer.draws) && textures == old(textures)
      ensures PickCamera(camera, mainCamera).Some? ==>
        && renderer.draws == old(renderer.draws) + StereoFrame(
             PickCamera(camera, mainCamera).value, eyeOffset, lights.GetOr([]),
             leftTarget, rightTarget, renderToScreen, writeBuffer, clear, GoggleComposite)
        && textures == old(textures)["LEFT_TEX" := leftTarget]["RIGHT_TEX" := rightTarget]
    {
      var picked := PickCamera(camera, mainCamera);
      if picked.None? {
        return;
      }
      var cam := picked.value;
      var sceneLights := lights.GetOr([]);
      renderer.Render(Draw(RenderList, SceneView(LeftEye(cam, eyeOffset)), Some(sceneLights), leftTarget, clear, None));
      renderer.Render(Draw(RenderList, SceneView(RightEye(cam, eyeOffset)), Some(sceneLights), rightTarget, clear, None));
      textures := textures["LEFT_TEX" := leftTarget]["RIGHT_TEX" := rightTarget];
      if renderToScreen {
        renderer.Render(Draw(Quad(GoggleComposite), FullscreenView, Some([]), None, clear, None));
      } else {
        renderer.Render(Draw(Quad(GoggleComposite), FullscreenView, Some([]), Some(writeBuffer), clear, None));
      }
    }
  }

  /** With no colors given, `setup` installs the declared parameter defaults in place
      of the shader's initial colors; with no eye distance the offset is 0, not half
      the declared default. */
  method DefaultsFromParameters(viewportWidth: real, viewportHeight: real) returns (pass: GoggleRenderPass)
    ensures Parameters[2].key == "leftColor" && Tint(pass.leftColor) == Parameters[2].default
    ensures Parameters[3].key == "rightColor" && Tint(pass.rightColor) == Parameters[3].default
    ensures pass.leftColor != ShaderLeftColor && pass.rightColor != ShaderRightColor
    ensures Parameters[0].key == "eyeDistance" && Scalar(2.0 * pass.eyeOffset) != Parameters[0].default
  {
    var gpu := new Gpu();
    pass := new GoggleRenderPass(gpu, viewportWidth, viewportHeight, GoggleArgs(None, None, None, None));
  }

  /** Every resize leaves the previous pair of targets live: after the constructor and
      one `updateSize`, all four targets hold GPU memory, though the pass can reach
      only the last two. */
  method ResizeLeaks(viewportWidth: real, viewportHeight: real, size: Size) returns (live: set<nat>, held: set<nat>)
    ensures live == {0, 1, 2, 3} && held == {2, 3}
  {
    var gpu := new Gpu();
    assert Live(gpu.log) == {};
    var pass := new GoggleRenderPass(gpu, viewportWidth, viewportHeight, GoggleArgs(None, None, None, None));
    pass.UpdateSize(SizeObject(size));
    live := Live(gpu.log);
    held := HeldIds(pass.leftTarget, pass.rightTarget);
  }
}
