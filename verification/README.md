# Light-mode state machine of the Babylon.js demo scene

`createScene` in `src/scene.js` builds a static demo scene and keeps one piece
of real state: four lights (hemispheric, directional, point, spot), of which
exactly one is enabled, and the string `currentLightType` naming it. Pressing
`l` or `L` calls `switchLightType`, which disables all four lights and enables
the next one in the fixed cycle hemispheric -> directional -> point -> spot ->
hemispheric.

This project models that state machine in Dafny:

- `wrappers.dfy` — `Wrappers.Option`.
- `light_modes.dfy` — module `LightModes`: the closed enum `LightMode`, its
  position in the cycle (`Index`), the successor `Next`, the four string tags
  (`Name`, `Parse`) and the period-four law.
- `light_rig.dfy` — module `LightRig`: a `Light` (intensity and enabled flag),
  the `Rig` of four lights, `setEnabled` (`SetEnabled`), clearing all flags
  (`DisableAll`) and the "only this light is on" predicate.
- `light_controller.dfy` — module `LightController`: the state (rig plus
  current mode), start-up (`Init`), `switchLightType` (`Switch`), the keydown
  filter (`OnKey`), sessions of key events (`Run`) and the invariant lemmas.
  `Scene<World>` wraps the lighting together with an opaque rest of the scene.
- `tagged_switch.dfy` — module `TaggedSwitch`: the switch as written, over
  string tags with no `default` case, and the proof that from start-up it
  tracks the enum model step for step.

The source keeps the mode as a string and switches over it without a
`default`. The model uses a closed enum so that the successor is total; the
four case labels `'hemispheric'`, `'directional'`, `'point'`, `'spot'`
correspond one to one to the constructors `Hemispheric`, `Directional`,
`Point`, `Spot` (`LightModes.NameParse`). `TaggedSwitch` shows what the missing
`default` would do (every light off, tag unchanged) and that no session of key
events from start-up ever reaches it.

The first mode is `'hemispheric'`, and `switchLightType` clears all four
lights before enabling the next one. As a result, `Switch` restores the
single-light invariant from any state, not only from states that already
satisfy it.

## Model

| member | source | states |
|---|---|---|
| LightModes.Next | src/scene.js:107-127 | the successor of a mode is the mode one place further in the cycle hemispheric, directional, point, spot (position plus one modulo four), and never the mode itself |
| LightModes.CyclePeriod | src/scene.js:107-127 | `n` successive switches return to the starting mode if and only if `n` is a multiple of four |
| LightModes.NameParse | src/scene.js:107-127 | a string tag is recognised as a mode exactly when it is that mode's case label, so the four labels and the four modes correspond one to one |
| LightModes.ParseName | src/scene.js:43 | every mode's tag is recognised as that mode again |
| LightRig.SetEnabled | src/scene.js:101-104 | `setEnabled` on one light sets that light's flag to the given value and leaves its intensity and every other light unchanged |
| LightRig.DisableAll | src/scene.js:101-104 | after the four `setEnabled(false)` calls no light is enabled and every light's intensity is unchanged |
| LightRig.OnlyEnabledIsExactlyOne | src/scene.js:41-43 | "only the light of mode `m` is on" holds if and only if exactly one light is enabled and it is the light of mode `m` |
| LightController.Init | src/scene.js:25-43 | after start-up exactly one light is enabled, it is the hemispheric light, the mode is hemispheric, and the intensities are 0.9 (hemispheric), 0.8 (directional), 1.0 (point) and 1.2 (spot) |
| LightController.Switch | src/scene.js:99-129 | after a switch exactly the light of the new mode is enabled, whatever the flags were before; the new mode is the successor of the old; the previously current light is disabled; no intensity changes |
| LightController.SwitchEnablesExactlyOne | src/scene.js:99-128 | after a switch the number of enabled lights is exactly one and the enabled light is the successor mode's |
| LightController.SwitchNAdvances | src/scene.js:107-127 | after `n` switches the mode has advanced `n` places in the cycle, the intensities are unchanged, and from the first switch on the single-light invariant holds |
| LightController.SwitchPeriod | src/scene.js:107-127 | four switches restore the mode from every state; `n > 0` switches restore the whole state, all four flags included, if and only if `n` is a multiple of four and the start state satisfies the invariant |
| LightController.SwitchKeyIsLetterL | src/scene.js:133 | the key filter accepts exactly the one-character keys `l` and `L` |
| LightController.OnKey | src/scene.js:132-136 | a keydown whose key is the single character `l` or `L` advances the mode to its successor, leaves exactly the new light on and the old one off; any other key leaves the mode and all flags unchanged; no intensity changes either way |
| LightController.OnKeyChangesModeIffSwitchKey | src/scene.js:132-136 | a keydown changes the current mode if and only if its key is `l` or `L` |
| LightController.RunIsSwitchN | src/scene.js:132-136 | handling a sequence of keydown events equals performing one switch per `l`/`L` key in it, the other keys contributing nothing |
| LightController.RunKeepsInvariant | src/scene.js:99-136 | from a state where exactly the current mode's light is on, that invariant holds after any finite sequence of key events, and the intensities never change |
| LightController.RunIgnoresOtherKeys | src/scene.js:132-136 | a sequence of key events containing no `l`/`L` leaves the state unchanged |
| LightController.RunFromInit | src/scene.js:25-136 | after start-up and any sequence of key events, exactly the light at cycle position (number of `l`/`L` presses modulo four) is on, that is the mode, and the intensities are the configured ones |
| LightController.RunSceneOnlyTouchesLighting | src/scene.js:99-136 | after any sequence of keydown events delivered to the scene, the camera, meshes, materials and imported model are exactly as before, and the lighting is what the controller alone computes for that sequence |
| TaggedSwitch.TaggedInit | src/scene.js:41-43 | the tag set at start-up is recognised as the hemispheric mode |
| TaggedSwitch.TaggedInitRefines | src/scene.js:25-43 | start-up over string tags is start-up of the enum model |
| TaggedSwitch.SwitchTaggedRefines | src/scene.js:99-128 | on each of the four case labels the string switch enables the same light and stores the name of the same successor mode as the enum switch |
| TaggedSwitch.UnknownTagDarkens | src/scene.js:99-128 | a tag matching no case leaves every light disabled and the tag unchanged, since the switch has no default |
| TaggedSwitch.RunTaggedRefines | src/scene.js:99-136 | along any sequence of key events a state with a recognised tag keeps a recognised tag and tracks the enum model step for step |
| TaggedSwitch.TaggedReachableWellFormed | src/scene.js:43-136 | from start-up the tag is always one of the four case labels, and exactly the light it names is enabled |

## Left out

- Camera, materials, colours, primitive meshes and the loader registration (src/scene.js:15-22, 46-78): engine objects built once with fixed floating-point parameters and no logic; they are the opaque `World` of `LightController.Scene`.
- LightController.Switch: the light configuration it is proved to preserve is the intensity only; the lights' positions and directions, the spot cone angle `Math.PI / 3` and its exponent (src/scene.js:25-39) are floating-point engine parameters that are not part of the model.
- Light intensities are JavaScript doubles (src/scene.js:26, 30, 34, 38); the model holds them as exact reals, which is harmless because they are only stored and compared for equality, never computed with.
- The glTF model import (src/scene.js:81-96): asynchronous I/O with callbacks into a loader that is not part of this model; its progress percentage is a floating-point division.
- Console logging (src/scene.js:89-95, 111-126, 139): diagnostic output only.
- src/main.js: engine creation, render loop and resize handler are plumbing around the rendering engine.
- Event delivery: the browser delivers keydown events one at a time on a single thread, so a session is modelled as a sequence of keys handled in order; concurrent delivery does not arise.
