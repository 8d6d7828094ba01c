# Background effects: particle pool, interactions and loop controller

This project models the core of `BackgroundEffects`, a decorative canvas effect
drawn behind a portfolio page. Under the drawing calls the effect runs a small
sequential simulation, and the model proves that simulation's rules:

- a pool of particles: long-lived *ambient* particles that wrap at the viewport
  edges, and short-lived *burst* particles that a click spawns and that expire
  after a countdown;
- a per-frame update that moves, fades and filters the pool, then tops the
  ambient population back up to the configured count;
- pointer interactions: attraction and brightening near the pointer, and spin
  damping on every pointer move;
- the selection of connection lines between nearby pairs;
- the `setIntensity` knob;
- the start/stop loop controller and `toggle`;
- the noise hash and octave sum of the background texture, and the texture
  buffer's byte-index-to-pixel mapping.

Everything is over Dafny `real`s. The host's nondeterministic or transcendental
values are parameters:

- `Math.random()` is a draw of type `Unit01`, a real in [0, 1). The draws come
  as streams `nat -> Draw`, so any sequence of draws is covered.
- `Math.sin` and `Math.cos` are parameters of type `real -> Signed`. `Signed`
  is a real in [-1, 1].
- `Math.sqrt` is a parameter `root`. `IsSqrt(root)` states that it returns the
  non-negative square root.
- `Math.PI` is the constant `Common.Pi`.

Modules, one per component:

- `Common`: host values, `Option`, `Math.min`/`Math.max`/floor helpers, the
  canvas element.
- `Particles`: the particle record, the configuration, and the creation of
  fresh ambient particles.
- `Update`: `updateParticles`.
- `Interaction`: the `mousemove` and `click` handlers.
- `Connections`: the pair selection of `drawConnections`.
- `Intensity`: `setIntensity`.
- `LoopControl`: `animate`, `startAnimation`, `stopAnimation`, the visibility
  handler and `toggle`.
- `Noise`: `noise`, `generateNoise` and the texture index mapping.

Notes on what the code does, which the model follows:

- `toggle()` with no argument does not flip visibility. It keeps the current
  visibility, although the method's name and its comment ("toggle effects
  on/off") suggest a flip (see Findings).
- The pulse sets an ambient particle's drawn opacity to
  `baseOpacity * (1 + pulse / 4)`. It can therefore exceed the configured
  particle opacity, by less than a quarter of it; `Intensity.OpacityAfterNextFrame`
  bounds it by 1.25 times that opacity.
- The octave sum of the noise is bounded by 1.5 at the default two octaves
  (`Noise.GenerateNoise`).

## Model

| member | source | states |
|---|---|---|
| Common.Clamp01 | background-effects.js:396 | the clamped level lies in [0, 1]; it equals the input inside [0, 1], is 0 below and 1 above |
| Common.Pick | background-effects.js:151 | `colors[floor(random * length)]` always picks an element of the list |
| Particles.BaseOpacity | background-effects.js:156 | a fresh base opacity lies in [0.2, 1] times the configured opacity ceiling |
| Particles.NewAmbient | background-effects.js:143-157 | a fresh particle is ambient and lies inside the viewport; size, speed, opacity, base opacity, life, rotation, spin and phase are in their configured ranges; colour and shape come from the configured lists |
| Particles.CreateParticles | background-effects.js:139-159 | the pool is replaced by exactly `count` fresh particles (none for a non-positive count), all ambient |
| Particles.AmbientCount | background-effects.js:201 | the number of non-burst particles in the pool, never more than the pool's size |
| Particles.AmbientCountAppend | background-effects.js:201-202 | the ambient count of two pools put together is the sum of their counts |
| Particles.AllAmbientCount | background-effects.js:201 | a pool without burst particles counts every particle as ambient |
| Particles.NoAmbientCount | background-effects.js:201 | a pool of burst particles only has ambient count 0 |
| Update.Wrap | background-effects.js:180-184 | after wrapping, a coordinate lies within 10 of the viewport; one within the margins is kept; leaving past one margin re-enters at the other |
| Update.Pulse | background-effects.js:187 | the pulse factor lies in [0, 1]; it is 0 exactly at sine -1 and 1 exactly at sine 1 |
| Update.StepAmbient | background-effects.js:164-198 | an ambient particle stays ambient and inside the wrap margins; its drawn opacity lies between its base opacity and 1.25 times it; the drift and damping bound its speed growth |
| Update.StepBurst | background-effects.js:164-178 | a burst particle's countdown drops by exactly one; it moves without wrapping; its opacity becomes 0.98 times what it was; its speed is scaled by 0.97 and gains 0.1 downward; life advances by 0.5, phase by 0.03 and rotation by its spin; size, spin, base opacity, colour and shape are unchanged |
| Update.Step | background-effects.js:163-199 | a particle is dropped exactly when it is a burst whose countdown was at most 1; an ambient one always stays ambient |
| Update.Survivors | background-effects.js:163-199 | the pool after the filter, each particle's frame result in pool order with the expired bursts dropped; never more particles than before (its counts and positions are stated by the lemmas below) |
| Update.SurvivorsKeepAmbient | background-effects.js:163-199 | the filter never drops an ambient particle: the ambient count is unchanged |
| Update.SurvivorsSettled | background-effects.js:171-184 | after the filter, every ambient particle lies within [-10, W+10] x [-10, H+10] and every burst particle has a positive countdown |
| Update.FilterPass | background-effects.js:163-199 | the filter loop yields the survivors, in pool order |
| Update.Fresh | background-effects.js:202-217 | the particles pushed by the replenishment loop: exactly `count` of them |
| Update.FreshAmbient | background-effects.js:202-217 | every particle the replenishment loop pushes is ambient and starts inside the viewport |
| Update.ReplenishedCount | background-effects.js:201-202 | appending exactly the shortfall of ambient particles brings the ambient count to the target, or leaves it unchanged when it was already at or above it |
| Update.Replenish | background-effects.js:201-218 | the replenishment loop keeps the pool as a prefix and appends exactly the shortfall of fresh ambient particles; the ambient count ends at the target, or unchanged if it was already above |
| Update.UpdateParticles | background-effects.js:161-219 | after one frame the pool is the survivors, in order, followed by exactly as many fresh ambient particles as the survivors' ambient count falls short of the target |
| Update.UpdateReachesTarget | background-effects.js:201-218 | after one frame the ambient count is the larger of the target and the ambient count before the frame, so it never ends below the target |
| Update.BurstLifetime | background-effects.js:171-177 | a burst particle with countdown n is present after frame k exactly when k < n, with countdown n - k |
| Update.ClickBurstLasts60Frames | background-effects.js:172-177 | a burst with countdown 60 survives 59 frames and is gone after the 60th |
| Update.AmbientPersists | background-effects.js:179-198 | an ambient particle is never removed and never turns into a burst particle, however many frames pass |
| Update.AllAmbientSurvive | background-effects.js:179-198 | a pool of ambient particles keeps its size and stays all ambient through the filter |
| Update.RecreatedPoolKeepsCount | background-effects.js:139-159 | after recreating the pool for a count n and one frame, exactly n particles remain, all ambient (none for n <= 0): the filter keeps them all and the replenishment adds none |
| Interaction.Proximity | background-effects.js:354 | the proximity effect lies in (0, 1] within the pointer's reach |
| Interaction.Attraction | background-effects.js:349 | the attraction factor lies in (0, 0.002] within the pointer's reach |
| Interaction.AttractionDecreasing | background-effects.js:349 | a closer particle is pulled strictly harder |
| Interaction.PointerEffect | background-effects.js:342-360 | positions are unchanged; spin is damped by 0.95 regardless of distance; beyond 110 the velocity and opacity are kept; within 110 the particle is pulled toward the pointer by a factor in (0, 0.002], and its opacity is capped at 0.65 and not below its base opacity (up to the cap) |
| Interaction.PointerMove | background-effects.js:337-361 | the handler applies the per-particle rule to every particle and keeps the pool's size and ambient count |
| Interaction.ClickAngle | background-effects.js:370 | the launch angle `(i / 6) * 2 * pi` is non-negative and stays below one turn for the six burst indices |
| Interaction.ClickAnglesEvenlySpaced | background-effects.js:369-370 | the six launch angles start at 0, are a sixth of a turn apart, and stay within one turn |
| Interaction.BurstSpeed | background-effects.js:371 | the launch speed lies in [1, 3) |
| Interaction.NewBurst | background-effects.js:373-389 | a burst particle starts at the click point with countdown 60, opacity and base opacity 0.5, no rotation or spin, circle shape, a palette colour, and a velocity of its launch speed along the launch angle |
| Interaction.Click | background-effects.js:364-391 | a click appends exactly six burst particles, one per launch angle, each starting at the click point with the fixed burst fields, and leaves the existing particles untouched |
| Interaction.BurstsKeepAmbientCount | background-effects.js:373-389 | appending burst particles leaves the ambient count unchanged, so a click never adds or removes an ambient particle |
| Connections.LineOpacity | background-effects.js:275 | the line opacity falls linearly from the configured line opacity at distance 0 to 0 at the threshold |
| Connections.LineOpacityRange | background-effects.js:275 | below the threshold the line opacity lies in [0, lineOpacity]; it is positive when lineOpacity is, and equals lineOpacity at distance 0 |
| Connections.LineOpacityDecreasing | background-effects.js:275 | the line opacity strictly decreases as the distance grows, and reaches 0 at the threshold |
| Connections.CloseIffSquared | background-effects.js:270-274 | a pair is closer than the threshold exactly when its squared distance is below the squared threshold |
| Connections.ConnectRow | background-effects.js:266-287 | the inner loop for row i keeps earlier lines, adds a line (i, j) exactly for each close j > i, and keeps the lines in visiting order |
| Connections.DrawConnections | background-effects.js:262-289 | a pair i < j gets a line exactly when it is closer than the threshold; every line has the opacity of its distance; lines come in strictly increasing pair order, so no pair is drawn twice |
| Intensity.Rescale | background-effects.js:396-399 | the configuration takes particle opacity 0.5 i, line opacity 0.12 i and texture intensity 0.015 i; every other setting is unchanged |
| Intensity.Reroll | background-effects.js:406-410 | a burst particle is untouched; an ambient one changes only its base opacity, to a value in [0.2, 1] times the new ceiling |
| Intensity.SetIntensity | background-effects.js:395-411 | the level is clamped to [0, 1]; the configuration and canvas opacity are rescaled; burst particles are unchanged; each ambient particle gets only a new base opacity within the new ceiling; the pool's size and ambient count are unchanged |
| Intensity.FullIntensityRestoresDefaults | background-effects.js:395-403 | after any earlier level and on any canvas, a level of at least 1 restores the default configuration and sets the canvas opacity back to 0.7 |
| Intensity.ZeroIntensityDarkens | background-effects.js:395-410 | any level of at most 0 sets particle opacity, line opacity, canvas opacity and every ambient base opacity to 0 |
| Intensity.SetIntensitySettles | background-effects.js:396-403 | applying the same level twice leaves the same configuration and canvas as applying it once |
| Intensity.OpacityAfterNextFrame | background-effects.js:186-188 | after `setIntensity` and one frame, an ambient particle's opacity lies between 0.2 and 1.25 times the new ceiling |
| LoopControl.Cancel | background-effects.js:307 | the cancelled frame is no longer pending and nothing else is scheduled |
| LoopControl.Animate | background-effects.js:291-303 | without a drawing context nothing happens; with one, one update+draw pass runs and a fresh frame id is requested and recorded |
| LoopControl.Start | background-effects.js:305-310 | the recorded frame is cancelled before a new one is scheduled, so at most one frame stays pending; with a context a pass runs at once and the loop is running |
| LoopControl.Stop | background-effects.js:312-317 | no frame is left pending or recorded, and the loop is not running |
| LoopControl.Tick | background-effects.js:302 | a refresh runs the pending frame, which runs a pass and re-arms itself; with nothing pending nothing happens |
| LoopControl.VisibilityChange | background-effects.js:327-333 | hiding the page stops the loop; showing it restarts it |
| LoopControl.ShowAndRun | background-effects.js:417-425 | the canvas, if present, is shown exactly when enabled, and the loop runs exactly then |
| LoopControl.Toggle | background-effects.js:414-426 | an explicit argument sets visibility and starts the loop when true (given a context) or stops it when false; without one the visibility is kept; without an argument and without a canvas the call throws |
| LoopControl.ToggleWithoutArgumentKeepsVisibility | background-effects.js:415 | `toggle()` keeps a shown canvas shown and restarts the loop, and keeps a hidden canvas hidden with the loop stopped |
| LoopControl.ToggleFlip | background-effects.js:414-426 | the intended toggle: without an argument it flips the canvas's visibility; an explicit argument sets visibility and starts or stops the loop to match |
| LoopControl.ToggleFlipTwiceRestores | background-effects.js:414-426 | two argument-less flips restore the canvas's visibility |
| LoopControl.Initial | background-effects.js:43-86 | with a 2D context, the constructed controller has at most one pending frame and is running after one pass on the initial canvas; without one, construction fails (`resizeCanvas` at line 85 scales the missing context), so no controller exists |
| LoopControl.RunKeepsOneFrame | background-effects.js:305-333 | from any state with at most one pending frame, every sequence of start, stop, refresh, visibility and toggle events keeps at most one frame pending, both with `toggle` as written and with the flipping one |
| Noise.Hash | background-effects.js:133-137 | the hash's fractional-part step lies in [-1, 1) |
| Noise.GenerateNoise | background-effects.js:118-131 | the octave sum's absolute value is non-negative, 0 with no octaves, at most 2 - 2 * 0.5^octaves (1.5 at two octaves), and below 2 |
| Noise.PixelOf | background-effects.js:98-102 | each visited byte index maps to a pixel with both coordinates below 200 |
| Noise.PixelMappingBijective | background-effects.js:98-102 | byte index and pixel coordinates are in one-to-one correspondence: each maps back to the other |
| Noise.TextureAlpha | background-effects.js:108 | the alpha byte is 3 at the default intensity and between 0 and 3 at any lower intensity |

## Left out

- Canvas and DOM plumbing is not modelled: `createCanvas`, `resizeCanvas`, device-pixel-ratio scaling, `toDataURL` and the body background. These are host side effects with no logic to state.
- The shape drawing of `drawParticles` and the strokes of `drawConnections` are not modelled. The model returns the selected lines instead.
- The `if (!this.ctx) return` guard of `drawConnections` is not modelled. The model always selects lines. `animate` keeps its guard, as `Loop.hasContext`.
- Event-listener registration, `requestAnimationFrame` timing, `DOMContentLoaded`, the reduced-motion check and console logging are host wiring. The scheduler is only an id source with a set of pending ids.
- The resize handler is `resizeCanvas` followed by `createParticles`, which `Particles.CreateParticles` covers. `setParticleCount` is a count change followed by `createParticles`, which is covered the same way.
- `destroy` and the global `window.bgEffectsControl` object are thin wrappers and are not modelled.
- Floating-point rounding, `NaN` inputs to `setIntensity`, and the `Uint8ClampedArray` clamping of texture bytes above 255 are not modelled. These belong to the host's number semantics; the model uses reals.
- The texture's red, green and blue bytes (`floor(noise * 255)`) and writing the image are not modelled. The mapping, the noise and the alpha byte are.
- `Math.random()` is one global stream in the source. The model gives each particle its own draws, indexed by position and field. Every draw is an arbitrary value in [0, 1), so every concrete sequence of draws is covered.
- The `gradientShift` settings are never read by the code and are not modelled.
- Update.StepAmbient: states ranges for the sinusoidal drift and the pulse, not exact trajectories, because `sin` and `cos` are arbitrary functions with values in [-1, 1].
- Interaction.NewBurst: does not state that the launch velocity has magnitude exactly the launch speed. That needs `sin² + cos² = 1`, which the range-only trigonometric parameters do not carry.
- Connections.DrawConnections: holds for any distance function `root`, not only the square root. `Connections.CloseIffSquared` relates it to squared distances when `root` is the square root.
- LoopControl.Animate: keeps the `if (!this.ctx) return` guard of line 293 although every constructed controller has a context (`LoopControl.Initial`); the guard branch is an over-approximation of the reachable states.
- Particles.CreateParticles: models the particle count as an integer. A fractional count (possible through `setParticleCount`) makes the creation loop and the replenishment loop produce the count rounded up; this is not modelled.

## Findings

| source | as written | input that shows it | evidently intended | confidence | as-written member | corrected member |
|---|---|---|---|---|---|---|
| background-effects.js:415 | with no argument, `toggle` sets `isEnabled` to the canvas's current visibility | `toggle()` while the canvas is shown: it stays shown and the loop restarts; while hidden, it stays hidden | with no argument, flip the visibility, as the method's name and comment ("toggle effects on/off") say | medium, not executed | LoopControl.ToggleWithoutArgumentKeepsVisibility | LoopControl.ToggleFlip |

`LoopControl.Run` takes the toggle rule as a parameter: `LoopControl.RunKeepsOneFrame` holds for the code as written and for the corrected `LoopControl.ToggleFlip`.
