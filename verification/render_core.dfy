/** What the three render passes share: sizes, cameras and their eye offsets,
    render-target handles and the GPU that creates and releases them, and the
    renderer, which records the draws a pass issues. */
module RenderCore {
  import opened Wrappers

  /** A `{ width, height }` size object. */
  datatype Size = Size(width: real, height: real)

  /** The argument a pass's `updateSize` receives: a size object, or (as the goggle
      pass's constructor passes it) a bare number, whose `width` and `height`
      properties are undefined. */
  datatype SizeArg = SizeObject(size: Size) | Number(n: real)

  /** `size.width` and `size.height`, `None` where undefined. */
  function WidthOf(a: SizeArg): Option<real>
  {
    match a
    case SizeObject(s) => Some(s.width)
    case Number(_) => None
  }

  function HeightOf(a: SizeArg): Option<real>
  {
    match a
    case SizeObject(s) => Some(s.height)
    case Number(_) => None
  }

  datatype Vec3 = Vec3(x: real, y: real, z: real)
  {
    function Add(v: Vec3): Vec3 { Vec3(x + v.x, y + v.y, z + v.z) }
    function Sub(v: Vec3): Vec3 { Vec3(x - v.x, y - v.y, z - v.z) }
    function Scale(k: real): Vec3 { Vec3(k * x, k * y, k * z) }
  }

  /** A camera as the passes use it: its position, its left axis, and its
      perspective (vertical field of view and aspect). */
  datatype Camera = Camera(translation: Vec3, left: Vec3, fov: real, aspect: real)

  datatype Light = Light(id: nat)

  /** A render target: a handle, with the width and height it was created with
      (`None` for undefined). */
  datatype Target = Target(id: nat, width: Option<real>, height: Option<real>)

  datatype GpuEvent = Created(target: Target) | Destroyed(target: Target)

  /** The ids of the targets the log creates. */
  function CreatedIds(log: seq<GpuEvent>): set<nat>
  {
    if log == [] then {}
    else CreatedIds(log[..|log| - 1]) + (if log[|log| - 1].Created? then {log[|log| - 1].target.id} else {})
  }

  /** The ids of the targets the log releases. */
  function DestroyedIds(log: seq<GpuEvent>): set<nat>
  {
    if log == [] then {}
    else DestroyedIds(log[..|log| - 1]) + (if log[|log| - 1].Destroyed? then {log[|log| - 1].target.id} else {})
  }

  /** The targets that hold GPU memory: created and not yet released. */
  function Live(log: seq<GpuEvent>): set<nat>
  {
    CreatedIds(log) - DestroyedIds(log)
  }

  /** Every event names a target with an id below `nextId`. */
  predicate IdsBelow(log: seq<GpuEvent>, nextId: nat)
  {
    forall i :: 0 <= i < |log| ==> log[i].target.id < nextId
  }

  lemma {:induction false} IdsBelowBound(log: seq<GpuEvent>, nextId: nat)
    requires IdsBelow(log, nextId)
    ensures forall id :: id in CreatedIds(log) ==> id < nextId
    ensures forall id :: id in DestroyedIds(log) ==> id < nextId
  {
    if log != [] {
      var prefix := log[..|log| - 1];
      var last := log[|log| - 1];
      assert IdsBelow(prefix, nextId) by {
        forall i | 0 <= i < |prefix|
          ensures prefix[i].target.id < nextId
        {
          assert prefix[i] == log[i];
        }
      }
      IdsBelowBound(prefix, nextId);
      assert last.target.id < nextId;
      assert CreatedIds(log) == CreatedIds(prefix) + (if last.Created? then {last.target.id} else {});
      assert DestroyedIds(log) == DestroyedIds(prefix) + (if last.Destroyed? then {last.target.id} else {});
    }
  }

  /** Creating a target with a fresh id makes it live and leaves the others alone. */
  lemma LiveAfterCreate(log: seq<GpuEvent>, nextId: nat, t: Target)
    requires IdsBelow(log, nextId) && t.id == nextId
    ensures Live(log + [Created(t)]) == Live(log) + {t.id}
  {
    IdsBelowBound(log, nextId);
    var grown := log + [Created(t)];
    assert grown[..|log|] == log;
    assert CreatedIds(grown) == CreatedIds(log) + {t.id};
    assert DestroyedIds(grown) == DestroyedIds(log);
    assert t.id !in DestroyedIds(log);
  }

  /** Releasing a target ends its life and leaves the others alone. */
  lemma LiveAfterDestroy(log: seq<GpuEvent>, t: Target)
    ensures Live(log + [Destroyed(t)]) == Live(log) - {t.id}
  {
    var grown := log + [Destroyed(t)];
    assert grown[..|log|] == log;
    assert CreatedIds(grown) == CreatedIds(log);
    assert DestroyedIds(grown) == DestroyedIds(log) + {t.id};
  }

  /** The ids of the targets a pass holds in its pair of target fields. */
  function HeldIds(left: Option<Target>, right: Option<Target>): set<nat>
  {
    (if left.Some? then {left.value.id} else {}) + (if right.Some? then {right.value.id} else {})
  }

  /** The releases of a pass's pair of targets: both, when there is a first one. */
  function Releases(left: Option<Target>, right: Option<Target>): seq<GpuEvent>
    requires left.Some? ==> right.Some?
  {
    if left.Some? then [Destroyed(left.value), Destroyed(right.value)] else []
  }

  /** The GPU context: it hands out target handles and records every creation and
      release. */
  class Gpu {
    var log: seq<GpuEvent>
    var nextId: nat

    predicate Valid()
      reads this
    {
      IdsBelow(log, nextId)
    }

    constructor()
      ensures Valid() && log == [] && nextId == 0
    {
      log := [];
      nextId := 0;
    }

    /** `new goo.RenderTarget(width, height)` */
    method CreateTarget(width: Option<real>, height: Option<real>) returns (t: Target)
      requires Valid()
      modifies this
      ensures Valid()
      ensures t == Target(old(nextId), width, height)
      ensures log == old(log) + [Created(t)] && nextId == old(nextId) + 1
      ensures Live(log) == Live(old(log)) + {t.id}
    {
      t := Target(nextId, width, height);
      LiveAfterCreate(log, nextId, t);
      log := log + [Created(t)];
      nextId := nextId + 1;
    }

    /** `target.destroy(context)` */
    method DestroyTarget(t: Target)
      requires Valid() && t.id < nextId
      modifies this
      ensures Valid()
      ensures log == old(log) + [Destroyed(t)] && nextId == old(nextId)
      ensures Live(log) == Live(old(log)) - {t.id}
    {
      LiveAfterDestroy(log, t);
      log := log + [Destroyed(t)];
    }

    /** A pass's two `destroy` calls on its pair of targets, made when it has a
        first target. */
    method ReleasePair(left: Option<Target>, right: Option<Target>)
      requires Valid() && (left.Some? <==> right.Some?)
      requires left.Some? ==> left.value.id < nextId && right.value.id < nextId
      modifies this
      ensures Valid()
      ensures log == old(log) + Releases(left, right) && nextId == old(nextId)
      ensures Live(log) == Live(old(log)) - HeldIds(left, right)
    {
      if left.Some? {
        DestroyTarget(left.value);
        DestroyTarget(right.value);
      }
    }

    /** Two `new goo.RenderTarget(width, height)` of the same dimensions. */
    method CreatePair(width: Option<real>, height: Option<real>) returns (left: Target, right: Target)
      requires Valid()
      modifies this
      ensures Valid()
      ensures left == Target(old(nextId), width, height) && right == Target(old(nextId) + 1, width, height)
      ensures log == old(log) + [Created(left), Created(right)] && nextId == old(nextId) + 2
      ensures Live(log) == Live(old(log)) + {old(nextId)} + {old(nextId) + 1}
    {
      left := CreateTarget(width, height);
      right := CreateTarget(width, height);
    }
  }

  /** The materials a pass draws with. */
  datatype Material = DepthMaterial | DofComposite | RiftComposite | GoggleComposite

  /** What a draw renders: the scene's render list, or the fullscreen quad carrying a
      pass's material. */
  datatype Source = RenderList | Quad(material: Material)

  /** The camera of a draw: a scene camera, or the fullscreen camera of the quad. */
  datatype View = SceneView(camera: Camera) | FullscreenView

  /** One `renderer.render(source, camera, lights, target, clear, overrideMaterial)`
      call. A `None` target is the screen; `None` lights are undefined. */
  datatype Draw = Draw(
    source: Source,
    view: View,
    lights: Option<seq<Light>>,
    target: Option<Target>,
    clear: bool,
    overrideMaterial: Option<Material>)

  /** The renderer, seen through the draws it is asked to make. */
  class Renderer {
    var draws: seq<Draw>

    constructor()
      ensures draws == []
    {
      draws := [];
    }

    /** `renderer.render(...)` */
    method Render(d: Draw)
      modifies this
      ensures draws == old(draws) + [d]
    {
      draws := draws + [d];
    }
  }

  /** `camera || mainCamera` */
  function PickCamera(camera: Option<Camera>, mainCamera: Option<Camera>): (r: Option<Camera>)
    ensures r.None? <==> camera.None? && mainCamera.None?
    ensures camera.Some? ==> r == camera
  {
    if camera.Some? then camera else mainCamera
  }

  /** The left eye: the camera moved by `eyeOffset` along its left axis. */
  function LeftEye(cam: Camera, eyeOffset: real): (r: Camera)
    ensures r.translation.Sub(cam.translation) == cam.left.Scale(eyeOffset)
    ensures r.left == cam.left && r.fov == cam.fov && r.aspect == cam.aspect
  {
    cam.(translation := cam.translation.Add(cam.left.Scale(eyeOffset)))
  }

  /** The right eye: the offset vector doubled and taken back off the left eye. */
  function RightEye(cam: Camera, eyeOffset: real): (r: Camera)
    ensures r.translation == cam.translation.Sub(cam.left.Scale(eyeOffset))
    ensures r.left == cam.left && r.fov == cam.fov && r.aspect == cam.aspect
  {
    var left := LeftEye(cam, eyeOffset);
    left.(translation := left.translation.Sub(cam.left.Scale(eyeOffset).Scale(2.0)))
  }

  /** The two eyes sit `eyeOffset` to either side of the camera, along its left
      axis, and keep its orientation and perspective. */
  lemma EyesAreSymmetric(cam: Camera, e: real)
    ensures LeftEye(cam, e).translation == cam.translation.Add(cam.left.Scale(e))
    ensures RightEye(cam, e).translation == cam.translation.Sub(cam.left.Scale(e))
    ensures LeftEye(cam, e).translation.Add(RightEye(cam, e).translation).Scale(0.5) == cam.translation
    ensures RightEye(cam, e).left == cam.left && RightEye(cam, e).fov == cam.fov && RightEye(cam, e).aspect == cam.aspect
  {
  }

  /** The draws of a stereo pass: the scene from the left eye into `left`, from the
      right eye into `right`, then the composite quad to the screen or to
      `writeBuffer`. */
  function StereoFrame(cam: Camera, eyeOffset: real, lights: seq<Light>, left: Option<Target>, right: Option<Target>,
                       toScreen: bool, writeBuffer: Target, clear: bool, composite: Material): (ds: seq<Draw>)
    ensures |ds| == 3
    ensures ds[0].source == RenderList && ds[0].view == SceneView(LeftEye(cam, eyeOffset)) && ds[0].target == left
    ensures ds[1].source == RenderList && ds[1].view == SceneView(RightEye(cam, eyeOffset)) && ds[1].target == right
    ensures ds[2].source == Quad(composite) && ds[2].view == FullscreenView && ds[2].lights == Some([])
    ensures ds[2].target.None? <==> toScreen
    ensures !toScreen ==> ds[2].target == Some(writeBuffer)
    ensures forall i :: 0 <= i < 3 ==> ds[i].clear == clear && ds[i].overrideMaterial.None?
    ensures ds[0].lights == ds[1].lights == Some(lights)
  {
    [ Draw(RenderList, SceneView(LeftEye(cam, eyeOffset)), Some(lights), left, clear, None),
      Draw(RenderList, SceneView(RightEye(cam, eyeOffset)), Some(lights), right, clear, None),
      Draw(Quad(composite), FullscreenView, Some([]), if toScreen then None else Some(writeBuffer), clear, None) ]
  }
}
