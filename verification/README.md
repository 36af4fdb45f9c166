# GooHelpers core, modelled in Dafny

This project models three pieces of the GooHelpers helpers for the Goo engine:

- **The pass switcher** (`PassSwitcher.js`). It puts one post-processing pass at the head of the first composer's chain. When there is no composer, it creates one. `switchBack` takes the pass out again. The module-level `originalPass`, `originalComposer` and `addedPass` are the fields of a `Switcher` object. The composers, their chains and the passes are objects whose fields the methods update.
- **The Web MIDI wrapper** (`MidiEval.js`). This covers:
  - the channel-message codec, `getData`/`setData` over the seven channel voice messages of the MIDI 1.0 Detailed Specification;
  - `parseNote`;
  - the `Channel` event target with `on`, `off` and `_emit`;
  - the sixteen channels and the `onMidi` dispatch.

  The codec is modelled as pure functions over JavaScript values (`Num`, `NaN`, `undefined`). The 32-bit bitwise operators are written out over integers in `JsBits`.
- **Three render passes** (`RiftRenderPass.js`, `DOFRenderPass.js`, `GoggleRenderPass.js`). Each is a class whose fields follow the source.
  - A `Gpu` hands out render-target handles and logs every creation and release. The set of live handles, `Live`, is derived from that log.
  - A `Renderer` logs every `render` call as a `Draw`. A draw records what was drawn, through which camera, with which lights, into which target (`None` is the screen), with which `clear` flag and which override material.
  - Cameras are values. The left eye is the camera moved by `eyeOffset` along its left axis. The right eye is the left eye moved back by twice that.

The modules are:

| Module | Contents |
|---|---|
| `Wrappers` | An Option type. |
| `Seqs` | `indexOf`, and removal of the first occurrence (`goo.ArrayUtil.remove` and `splice(indexOf(x), 1)`). |
| `JsBits` | ECMAScript `ToInt32`/`ToUint32` and the `|`, `&`, `<<` and `>>` operators. |
| `MidiCodec` | The codec as written. |
| `MidiCodecFixed` | The codec with its defects corrected (see Findings). |
| `MidiListeners` | `Channel` and the channel registry. |
| `RenderCore` | Sizes, cameras, targets, the GPU and the renderer. |
| `Rift`, `Dof`, `Goggle` | The three passes. |
| `PassSwitcher` | The pass switcher. |

The MIDI dispatch (`MidiListeners`) decodes with the codec as written, because it models what the wrapper delivers to its listeners.

## Model

| member | source | states |
|---|---|---|
| Seqs.IndexOf | MidiEval.js:248 | The first index of the value, or -1 exactly when it does not occur; nothing before that index is the value. |
| Seqs.RemoveFirst | PassSwitcher.js:43 | Unchanged when the value is absent; otherwise the list with the element at the first index removed. |
| Seqs.RemoveFirstMultiset | PassSwitcher.js:43 | Removal takes away exactly one copy of the value and keeps every other element. |
| Seqs.RemoveFront | PassSwitcher.js:43-44 | Removing a value that was just put at the front gives back the rest. |
| Seqs.RemoveFirstAppend | MidiEval.js:242-251 | Removal from a list that grew at the end removes an earlier occurrence and keeps the new element last; otherwise it removes the new element when it is the value. |
| MidiCodec.TypeIndex | MidiEval.js:165 | `typeMap.indexOf(type)`: -1 exactly for an unknown type, and otherwise an index whose table entry is the type. |
| MidiCodec.GetData | MidiEval.js:111-157 | The decoder always returns a message (never its error object), with a channel in 0..15. |
| MidiCodec.SetData | MidiEval.js:159-199 | Throws (`None`) exactly for a note type with an undefined note; otherwise the first byte is the status byte. |
| MidiCodec.NoteIndex | MidiEval.js:68 | `(n % 12 + 12) % 12` with JavaScript's remainder is in 0..11 and is congruent to n, for negative n too. |
| MidiCodec.ParseNote | MidiEval.js:65-68 | `12 * octave + noteIndex == n`, and the name is `noteMap[noteIndex]`. |
| MidiCodec.NoteIndexIsModulo | MidiEval.js:68 | The note index equals n modulo 12. |
| MidiCodec.ParseNoteInjective | MidiEval.js:65-68 | Two note numbers with the same octave and name are equal. |
| MidiCodec.StatusGuardNeverFires | MidiEval.js:112 | The guard `bytes[0] & 1 << 7 === 0` evaluates to 0 for every first byte. |
| MidiCodec.ChannelRange | MidiEval.js:119 | `bytes[0] & 15` is in 0..15. |
| MidiCodec.StatusByteValue | MidiEval.js:161-166 | For channel 0..15 and a known type, the OR of `1 << 7`, the channel and `typeIndex << 4` is `0x80 + 16 * typeIndex + channel`. |
| MidiCodec.DecodeStatus | MidiEval.js:119-122 | The channel is the low nibble; the type is `typeMap` at the high nibble modulo 8; it is undefined exactly for the high nibbles 7 and 15. |
| MidiCodec.NoByteIsRejected | MidiEval.js:112-122 | A first byte below 0x80 decodes as a message; below 0x70 its type is `typeMap[high nibble]`. |
| MidiCodec.DecodeKnownStatus | MidiEval.js:119-122 | The byte `0x80 + 16k + c` decodes as channel c and the k-th type. |
| MidiCodec.StatusRoundTrip | MidiEval.js:159-166 | The status byte built for channel c and type t lies in 0x80..0xEF and decodes back to c and t. |
| MidiCodec.NoteRoundTrip | MidiEval.js:127-132 | A numeric note goes out as `note + 60` with its value, and the decoder gives back the same note, value, type and channel. |
| MidiCodec.ProgramRoundTrip | MidiEval.js:143-145 | A program change goes out as two bytes and decodes back to the same program and channel. |
| MidiCodec.BendSplit | MidiEval.js:194-195 | `value >> 7` and `value & 127` are the quotient and remainder by 128, both 7-bit. |
| MidiCodec.PitchBendRoundTrip | MidiEval.js:150 | For 0 <= value < 16384 the pitch bend goes out as `[stat, v/128, v%128]` and decodes back to the value. |
| MidiCodec.PitchBendIsMsbFirst | MidiEval.js:193-196 | For every 14-bit value, the high seven bits are sent before the low seven (so the centre 0x2000 goes out as En 40 00). |
| MidiCodec.ChannelPressureFallsThrough | MidiEval.js:191-196 | Channel pressure goes out as four bytes: the value, then the two pitch-bend bytes of the same value. |
| MidiCodec.ControllerResendLosesIndex | MidiEval.js:186 | Re-sending a decoded controller change puts undefined in place of the controller number. |
| MidiCodec.ControllerNaming | MidiEval.js:134-141 | A controller change carries a `controllerName` exactly for controllers 1, 7, 10, 11 and 64. |
| MidiCodec.SystemStatusHasNoType | MidiEval.js:121-124 | A first byte 0xF0..0xFF decodes with an undefined type and an empty data object. |
| MidiCodecFixed.Decode | MidiEval.js:111-157 | Every message the corrected decoder accepts has the channel and type `getData` gives. Apart from pitch bend, it is exactly `getData`'s message. |
| MidiCodecFixed.Encode | MidiEval.js:159-199 | The corrected encoder throws only for an undefined note; it starts with the status byte and gives every known type exactly its MIDI 1.0 data length. |
| MidiCodecFixed.DecodeRejectsDataBytes | MidiEval.js:112 | The corrected guard refuses a message exactly when it is empty or its first byte is below 0x80. |
| MidiCodecFixed.DecodeHeader | MidiEval.js:119-122 | A well-formed message decodes to its low nibble and its type, and the encoder's status byte for these is the original first byte. |
| MidiCodecFixed.PitchBendBytesRoundTrip | MidiEval.js:150 | With the low byte first, the decoded bend value is re-encoded to the same two bytes. |
| MidiCodecFixed.RoundTrip | MidiEval.js:111-199 | Every well-formed channel voice message is decoded and re-encoded byte for byte. |
| MidiCodecFixed.EncodePayload | MidiEval.js:169-197 | The per-type cases of the round trip: the payload of each type re-encodes to its data bytes. |
| MidiCodecFixed.PitchBendIsLsbFirst | MidiEval.js:193-196 | For every 14-bit value, the corrected encoder sends the low seven bits before the high seven (so the centre 0x2000 goes out as En 00 40). |
| MidiListeners.AfterOn | MidiEval.js:242-245 | `on` appends the callback to the key's list, creating the list when absent, and keeps every other key. |
| MidiListeners.AfterOff | MidiEval.js:246-255 | With a callback and a list, `off` removes its first registration (no change if absent); otherwise it deletes the key; other keys are kept. |
| MidiListeners.EventKey | MidiEval.js:268 | The `data.type` key is "error" exactly for the error object, and "undefined" exactly for a message whose type is not in `typeMap`. |
| MidiListeners.OnThenOffRestores | MidiEval.js:242-255 | On a key with a list that lacks the callback, `on` then `off` gives back the map. |
| MidiListeners.OnThenOffLeavesEmptyKey | MidiEval.js:242-255 | On a key without a list, `on` then `off` leaves the key with an empty list, so the map differs. |
| MidiListeners.OnThenOffDropsOlderRegistration | MidiEval.js:242-255 | When the callback was already registered, `off` removes the older registration and the new one stays last. |
| MidiListeners.OffRemovesOneRegistration | MidiEval.js:246-251 | `off` removes exactly one registration and keeps every other listener of the key. |
| MidiListeners.EventKeysAreDistinct | MidiEval.js:268 | Known types are keyed by distinct names, never "error" or "undefined". |
| MidiListeners.UndefinedKeyHearsUnknownStatus | MidiEval.js:121-122 | Listeners on "undefined" hear exactly the messages whose high nibble is 7 or 15. |
| MidiListeners.Channel.constructor | MidiEval.js:239-241 | A new channel has no listeners. |
| MidiListeners.Channel.On | MidiEval.js:242-245 | The new listener map is `AfterOn` of the old one. |
| MidiListeners.Channel.Off | MidiEval.js:246-255 | The new listener map is `AfterOff` of the old one. |
| MidiListeners.Channel.Emit | MidiEval.js:267-275 | One call per listener of `data.type`, in registration order, each with the message. |
| MidiListeners.MidiEval.constructor | MidiEval.js:29-30 | No access and no channels. |
| MidiListeners.MidiEval.Init | MidiEval.js:33-53 | Once access is held, only success. A grant appends 16 fresh channels with no listeners. A refusal changes nothing. |
| MidiListeners.MidiEval.Destroy | MidiEval.js:54-60 | With access and a connected input, `removeListeners` throws and the channels and the access stay. With access and no input, both are dropped. Without access nothing changes. |
| MidiListeners.MidiEval.DestroyCorrected | MidiEval.js:54-60 | Corrected: with access, the channels and the access are always dropped. Without access nothing changes. |
| MidiListeners.MidiEval.GetChannel | MidiEval.js:62-64 | Defined exactly for 1..count, and then it is `channels[idx - 1]`. |
| MidiListeners.MidiEval.OnMidi | MidiEval.js:76-87 | The decoded message goes to the listeners of its type on `channels[data.channel]`, if that channel exists. |
| MidiListeners.InitScenario | MidiEval.js:33-64 | After a granted init, `getChannel` is defined exactly for 1..16. |
| MidiListeners.DestroyWithInputKeepsState | MidiEval.js:101-108 | With one input connected, `destroy` after a granted `init` throws and keeps all sixteen channels, and a later `init` succeeds without a grant. The corrected `destroy` leaves no channels. |
| RenderCore.Gpu.constructor | RiftRenderPass.js:87-88 | An empty log and no handles issued. |
| RenderCore.Gpu.CreateTarget | RiftRenderPass.js:87-88 | A new target gets the next handle and the given dimensions, is logged, and joins the live set. |
| RenderCore.Gpu.DestroyTarget | RiftRenderPass.js:42-43 | The release is logged and the handle leaves the live set. |
| RenderCore.LiveAfterCreate | RiftRenderPass.js:87-88 | Creating a target with a fresh handle adds exactly that handle to the live set. |
| RenderCore.LiveAfterDestroy | RiftRenderPass.js:42-43 | Releasing a target removes exactly its handle from the live set. |
| RenderCore.IdsBelowBound | RiftRenderPass.js:87-88 | Every handle created or released is below the next handle. |
| RenderCore.Renderer.constructor | DOFRenderPass.js:60 | No draws yet. |
| RenderCore.Renderer.Render | DOFRenderPass.js:60 | One `renderer.render` call appends exactly its draw. |
| RenderCore.PickCamera | RiftRenderPass.js:101-102 | `camera || mainCamera`: absent only when both are absent, and the argument wins when given. |
| RenderCore.LeftEye | RiftRenderPass.js:108-110 | The left eye is displaced from the camera by `eyeOffset` along its left axis, and keeps its orientation and perspective. |
| RenderCore.RightEye | RiftRenderPass.js:114-116 | The right eye is the camera moved `eyeOffset` against its left axis, and keeps its orientation and perspective. |
| RenderCore.EyesAreSymmetric | RiftRenderPass.js:108-119 | The eyes sit `eyeOffset` either side of the camera along its left axis, with its midpoint between them, and keep its orientation and perspective. |
| RenderCore.StereoFrame | RiftRenderPass.js:108-127 | Three draws: left eye into the left target, right eye into the right target, then the composite quad to the screen or `writeBuffer`. All three have the pass's `clear` flag and no override material. |
| Rift.EyeAspect | RiftRenderPass.js:75-78 | `width * 0.5 / height` is finite exactly when the height is nonzero, and then times the height it is half the width. |
| Rift.Boost | RiftRenderPass.js:39 | `boost3D || 1`: the given boost unless it is missing or zero, and never zero. |
| Rift.EyeTarget | RiftRenderPass.js:87-88 | An eye target is `0.9 * width` by `1.8 * height`, from `_dc = 1.8`. |
| Rift.RiftRenderPass.constructor | RiftRenderPass.js:3-36 | The flags, `eyeOffset` 0.4, `fov` 100, two eye targets for the viewport, and the boost from `setup`. |
| Rift.RiftRenderPass.Setup | RiftRenderPass.js:38-40 | `boost` is `Boost(boost3D)`. |
| Rift.RiftRenderPass.UpdateSize | RiftRenderPass.js:74-89 | `scaleIn` is always rewritten. The remembered size changes nothing else. Otherwise both old targets are released before two new eye targets are created, and the live set loses the old pair and gains the new one. |
| Rift.RiftRenderPass.Destroy | RiftRenderPass.js:41-46 | Both targets are released and nulled, leaving the size. With no targets it throws and changes nothing. |
| Rift.RiftRenderPass.UpdateConfig | RiftRenderPass.js:48-70 | `fov` (from `config.FOV`) and `eyeOffset = interpupillaryDistance * boost` are set, then a resize to the headset resolution. At the remembered size, the targets, the GPU log and the next handle are unchanged. Otherwise the old pair is released before two new eye targets are created; the live set loses the old pair and gains the new one, and the next handle advances by 2. |
| Rift.RiftRenderPass.Render | RiftRenderPass.js:91-128 | No camera means no draws. Otherwise the stereo frame with the pass's `fov` and aspect 1, and both eye textures bound. |
| Rift.ResizeIsIdempotent | RiftRenderPass.js:79 | A second resize to the same size creates and releases nothing. |
| Rift.DestroyThenSameSize | RiftRenderPass.js:79 | After `destroy`, a same-size resize leaves the pass without targets, and both eyes then draw to the screen. |
| Rift.DestroyTwiceThrows | RiftRenderPass.js:41-46 | The first `destroy` succeeds and the second throws. |
| Dof.SizedTarget | DOFRenderPass.js:38-39 | A target of exactly `size.width` by `size.height`. |
| Dof.DofFrame | DOFRenderPass.js:60-69 | Depth draw with the depth material, color draw with no override (both with the given lights), then the composite to the screen or `writeBuffer`. |
| Dof.DOFRenderPass.constructor | DOFRenderPass.js:3-16 | All four flags are true, the aspect is 0, and there are two viewport-sized targets. |
| Dof.DOFRenderPass.UpdateSize | DOFRenderPass.js:34-40 | The old pair (if any) is released before two new targets of the size are created, on every call. |
| Dof.DOFRenderPass.Destroy | DOFRenderPass.js:42-45 | Both targets are released and the fields still hold them. With no depth target it throws. |
| Dof.DOFRenderPass.Render | DOFRenderPass.js:47-70 | No camera means no draws. Otherwise the depth-of-field frame, with `DIFFUSE_MAP` bound to the color target and `DEPTH_MAP` to the depth target. |
| Dof.SameSizeRebuilds | DOFRenderPass.js:34-40 | A resize to the current size still releases both targets and creates two more. |
| Dof.DestroyThenResize | DOFRenderPass.js:35-45 | `destroy` then `updateSize` releases each original target twice. |
| Goggle.HalfOrZero | GoggleRenderPass.js:33-34 | `d / 2 || 0.0`: half the distance, or 0 when it is missing. |
| Goggle.GoggleRenderPass.constructor | GoggleRenderPass.js:3-30 | Flags. Targets are built from a bare number, so both dimensions are undefined. Then `setup`. |
| Goggle.GoggleRenderPass.Setup | GoggleRenderPass.js:32-37 | The eye and screen offsets are halves of the given distances, or 0. Colors fall back to [1,1,0] and [0,0,1]. |
| Goggle.GoggleRenderPass.UpdateSize | GoggleRenderPass.js:44-47 | Two new targets of `size.width` by `size.height` replace the fields, and nothing is released, so the live set only grows. |
| Goggle.GoggleRenderPass.Destroy | GoggleRenderPass.js:39-42 | Both targets are released and the fields still hold them. |
| Goggle.GoggleRenderPass.Render | GoggleRenderPass.js:49-85 | No camera means no draws. Otherwise the stereo frame with the camera's own perspective and the lights defaulting to [], and both eye textures bound. |
| Goggle.DefaultsFromParameters | GoggleRenderPass.js:33-36 | Without colors, `setup` installs the declared parameter defaults, not the shader's initial [1,0,0] and [0,1,0]. Without an eye distance the offset is 0, not half the declared 0.1. |
| Goggle.ResizeLeaks | GoggleRenderPass.js:44-47 | After one resize, all four targets are live while the pass holds only the last two. |
| PassSwitcher.Pass.UpdateSize | PassSwitcher.js:26 | The size is recorded as passed to `updateSize`. |
| PassSwitcher.Pass.Destroy | PassSwitcher.js:41 | One more `destroy` call. |
| PassSwitcher.Composer.constructor | PassSwitcher.js:18 | A new composer has an empty chain and no size. |
| PassSwitcher.Composer.Destroy | PassSwitcher.js:34 | One more `destroy` call. |
| PassSwitcher.Head | PassSwitcher.js:15 | `shift()` returns undefined on an empty chain; otherwise it returns the element in front of the rest of the chain. |
| PassSwitcher.Spliced | PassSwitcher.js:15-23 | `shift` then `unshift(pass)`: the pass in the head's place and the rest unchanged. |
| PassSwitcher.Restored | PassSwitcher.js:43-44 | `remove(added)` then `unshift(original)`: the saved head comes first. |
| PassSwitcher.RestoredKeepsOthers | PassSwitcher.js:43-44 | Restoring removes one copy of the added pass, adds the saved head, and keeps every other pass. |
| PassSwitcher.SpliceThenRestore | PassSwitcher.js:13-44 | On a non-empty chain, splicing a pass in and restoring gives back the chain, even if the pass was in it already. |
| PassSwitcher.EmptyChainRestoresUndefined | PassSwitcher.js:15-44 | On an empty chain the round trip leaves `[undefined]`. |
| PassSwitcher.NestedSwitchLosesHead | PassSwitcher.js:15-44 | `[h, x]` with two nested switches undone twice ends as `[a, a, x]`. |
| PassSwitcher.Switcher.constructor | PassSwitcher.js:3-5 | All three remembered values start null. |
| PassSwitcher.Switcher.SwitchPass | PassSwitcher.js:8-30 | With a composer: the head is saved, the pass is spliced in, off-screen. Without one: a new composer holding only the pass is appended and remembered, on-screen. A composer size resizes the pass (if it can) and becomes its viewport size. The pass is always the added pass. Only the chain of an existing composer changes, never its size or destroy count, and the pass is never destroyed. |
| PassSwitcher.Switcher.SwitchBack | PassSwitcher.js:31-46 | A remembered composer is destroyed and removed from the list. Otherwise the added pass is destroyed, and the chain becomes the saved head plus the chain without it; with no composer it throws. Nothing is forgotten. Only those destroy counts and that chain change: every composer's size, the added pass's flags, viewport size and resizes, and the remembered composer's chain stay as they were. |
| PassSwitcher.Switcher.SwitchBackAndReset | PassSwitcher.js:31-46 | The same undo, with the same fields left unchanged, after which the switcher is clean. |
| PassSwitcher.RoundTripOnChain | PassSwitcher.js:13-44 | With no remembered composer, switch then switch back restores a non-empty first chain and destroys the pass once. |
| PassSwitcher.RoundTripWithNewComposer | PassSwitcher.js:17-36 | With no composer, switch then switch back leaves the list empty, with the created composer destroyed once and still remembered. |
| PassSwitcher.RoundTripFromClean | PassSwitcher.js:13-46 | From a clean switcher, switch then the resetting switch-back restores the chain and leaves the switcher clean. |
| PassSwitcher.NestedSwitching | PassSwitcher.js:8-46 | Through the methods, nested switching from `[h, x]` ends `[a, a, x]` and destroys the second pass twice. |
| PassSwitcher.StaleComposerKeepsPass | PassSwitcher.js:31-46 | After one switch that created a composer, a later switch into an application chain `[h]` is never undone: the chain stays `[added]` and the old composer is destroyed twice. |
| PassSwitcher.StaleComposerFixed | PassSwitcher.js:31-46 | With the reset, the same sequence gives back `[h]` and destroys the created composer once. |
| PassSwitcher.ResetRoundTripWithNewComposer | PassSwitcher.js:17-36 | Corrected: with no composer, switch then the resetting switch-back leaves the list empty, destroys the created composer once and leaves the switcher clean. |

## Left out

- The GLSL shaders and shader definitions of all three passes are not modelled: the depth and bokeh shaders, the lens distortion shader and the anaglyph shader. The same goes for material construction, the fullscreen quad and every uniform except the texture bindings, the Goggle offsets and colors, and the first component of the Rift `scaleIn`.
- Floating-point behaviour is not modelled; sizes, offsets and cameras are reals. The Rift `scaleIn` division by a zero height is only marked as not finite (`NonFinite`). The lens uniforms `updateConfig` computes with `Math.pow` are left out.
- Camera objects: the passes' own `camera` and `offsetVector` objects are replaced by camera values. `camera.update()` and `setFrustumPerspective` are reduced to the fields they set (for Rift, `fov` and aspect 1). The state these objects keep after a frame is not modelled.
- The GPU behind `goo.RenderTarget` is not modelled beyond the handle log. `destroy(renderer.context)` and Rift's `destroy()` without a context are both modelled as a release on the pass's GPU. The `renderer` argument of `updateSize`/`destroy` is not modelled.
- Goggle `render` reads the global `goo.Renderer.mainCamera`, which becomes the `mainCamera` parameter. Rift and DOF read `this.goo.Renderer.mainCamera`, which is modelled the same way.
- MIDI I/O is not modelled: `requestMIDIAccess` and its promise (`Init` takes the outcome as `granted`), the `onSuccess`/`onError` callbacks, `addListeners` with its `setTimeout`, the listeners `removeListeners` would detach (only the number of connected inputs is modelled, as the `inputs` parameter of `Destroy`), and `Channel.send` with `performance.now` and the outputs.
- The `frequency` that `parseNote` computes with `Math.exp` is left out.
- The string-note branch of `setData` (regular expression and string coercion) is left out. A note that is neither a number nor undefined is not modelled.
- MIDI payload values are integral numbers, NaN or undefined. Fractional numbers are not modelled.
- Listener bodies are opaque `Callback` identities. What they do, including changing the list while `_emit` runs, is not modelled.
- MidiListeners.MidiEval.OnMidi: the `data.type === 'error'` branch is not modelled, because the decoder as written never returns its error object.
- PassSwitcher.Pass: passes are abstract. They are not linked to the three concrete passes. A pass is assumed to have a `destroy` method.
- PassSwitcher.Composer.constructor assumes that `new goo.Composer()` starts with an empty chain and no size. goo.Composer is not part of this model, and neither is what `composer.destroy` does to its passes.
- gooExtend.js is not part of this model.

## Findings

| source | as written | input that shows it | evidently intended | confidence | as-written member | corrected member |
|---|---|---|---|---|---|---|
| MidiEval.js:112 | `bytes[0] & 1 << 7 === 0` parses as `bytes[0] & ((1 << 7) === 0)`, which is always 0, so no first byte is refused | `[0x15, 60, 100]` decodes as a note-on on channel 5 | refuse a first byte whose top bit is clear | high (not executed) | MidiCodec.NoByteIsRejected | MidiCodecFixed.DecodeRejectsDataBytes |
| MidiEval.js:191-196 | `channelPressure` has no `break` and runs on into `pitchBend` | channel pressure 5 on channel 0 goes out as D0 05 00 05 | two bytes, D0 05 | high (not executed) | MidiCodec.ChannelPressureFallsThrough | MidiCodecFixed.RoundTrip |
| MidiEval.js:186 | `setData` reads `data.controllerIdx`; `getData` writes `controllerIndex` | re-sending the decoded B0 07 64 gives B0 undefined 64 | read `controllerIndex` | high (not executed) | MidiCodec.ControllerResendLosesIndex | MidiCodecFixed.RoundTrip |
| MidiEval.js:193-196 | pitch bend is sent high seven bits first, and `getData` reads `bytes[1] * 128 + bytes[2]` | the centre 0x2000 on channel 0 goes out as E0 40 00, while MIDI 1.0 has E0 00 40 | least significant seven bits first, as the MIDI 1.0 Detailed Specification lays out Pitch Bend Change | medium (not executed) | MidiCodec.PitchBendIsMsbFirst | MidiCodecFixed.PitchBendIsLsbFirst |
| MidiEval.js:101-108 | `removeListeners` calls `input.removeEventListener` on the iterator's `{value, done}` record rather than on `input.value` | `destroy` after a granted `init` with one MIDI input connected throws a TypeError, and the channels and the access stay | remove the listener from each input and drop the state | high (not executed) | MidiListeners.DestroyWithInputKeepsState | MidiListeners.MidiEval.DestroyCorrected |
| PassSwitcher.js:31-46 | `switchBack` never clears `originalComposer`, `originalPass` or `addedPass` | switch on an empty composer list, switch back, add an application composer with `[h]`, then switch in `b` and back: the chain stays `[b]` | forget the switch once it is undone | high (not executed) | PassSwitcher.StaleComposerKeepsPass | PassSwitcher.Switcher.SwitchBackAndReset |
