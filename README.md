# Verified model of three browser demos

The repository is a set of small three.js browser demos. This project models
the three parts of it that are plain sequential logic:

- **The cube/sphere toggle (2scene.js).** Clicking the cube hides it, shows
  the sphere and a "Quitter" button. "Quitter" brings the cube back. The
  state is five values: `currentScene`, `cube.visible`, `sphere.visible`,
  `cube.userData.clickable` and the button's `style.display`. Module
  `CubeSphere` gives each handler as a function on a `Snapshot` of those
  values. Class `Demo` holds the values in objects (`Mesh`, `Button`), and
  its handler methods are proved against those functions. Its invariant
  `Valid()` says the five values agree.
- **The point-cloud template (templet.js).** Nested loops write a 512 x 512
  grid into two zero-filled `Float32Array` buffers, and a frame counter
  `time` counts renders. Module `Grid` holds the shared grid specification
  and the two buffer writes (`setXYZ`, `setX`). Module `Templet` holds the
  loops and the sketch.
- **The particle sketch (app.js).** It uses the same grid fill and adds four
  random per-point attributes. Each frame, `render` picks the two textures
  the shader blends, using JavaScript's truncated `%` on
  `Math.floor(move)`, and hands its values to the shader uniforms. Module
  `Particles` models it, and `JsNumber` defines the truncated `%`.

Modelling choices:

- The raycast in 2scene.js becomes a boolean input `hitsCube`.
- `Math.random()` becomes a parameter `draw: nat -> real`, where `draw(k)`
  is the value of the k-th call. The loop calls it four times per point, in
  the order offset, speed, direction, press.
- Buffer values are exact: grid values are `int`, the random attributes are
  `real`, and `move` is `real`.
- `textures[k]` with `k` out of range gives JavaScript's `undefined`. It is
  modelled as `None` of an `Option`, so the out-of-range index is an
  outcome the model states rather than excludes.
- A click on "Quitter" runs the button's own listener (`quitScene`). The
  click then bubbles to the document's listener (`onClick`).
  `QuitterClicked` models both, which gives a result the code does not make
  obvious: if that click also lands on the cube, the demo goes straight back
  to the sphere scene.
- In exact arithmetic, under truncated `%`, `next` and `prev` are valid,
  distinct indices exactly when `Math.floor(move) >= -50`. Below that, one of them is -1 and
  the shader gets an `undefined` texture (`IndicesBelowRange`,
  `RenderedTextures`).

## Model

| member | source | states |
|---|---|---|
| `CubeSphere.Initial` | 2scene.js:19-62 | no contract of its own: the start state; `InitialIsCubeScene` and `ConsistentIsOneOfTwo` state what it is |
| `CubeSphere.Switched` | 2scene.js:82-90 | no contract of its own: `switchScene`; `SwitchFromCube`, `SwitchInSphereIsNoOp` and `SwitchThenQuit` state what it does |
| `CubeSphere.Quitted` | 2scene.js:92-99 | no contract of its own: `quitScene`; `QuitRestoresInitial` and `SwitchThenQuit` state what it does |
| `CubeSphere.Clicked` | 2scene.js:65-80 | no contract of its own: the document's `onClick`; `ClickSwitchesOnlyOnClickableCube` states what it does |
| `CubeSphere.QuitterClicked` | 2scene.js:52-61 | no contract of its own: `quitScene`, then `onClick`; `QuitterClickOutcome` states what it does |
| `CubeSphere.InitialIsCubeScene` | 2scene.js:19-62 | the start state is the cube scene: cube shown and clickable, sphere hidden, button display "none"; it is consistent |
| `CubeSphere.ConsistentIsOneOfTwo` | 2scene.js:82-99 | the five values agree exactly in the two states the handlers produce: the cube scene and the sphere scene |
| `CubeSphere.ClickSwitchesOnlyOnClickableCube` | 2scene.js:74-79 | in a consistent state a click changes the state if and only if it hits the cube and the cube is clickable, and then it yields the sphere scene |
| `CubeSphere.SwitchFromCube` | 2scene.js:82-90 | switching from the "cube" scene hides the cube, shows the sphere, makes the cube unclickable, shows the button and sets the scene to "sphere" |
| `CubeSphere.SwitchInSphereIsNoOp` | 2scene.js:83 | switching in any scene other than "cube" changes nothing |
| `CubeSphere.QuitRestoresInitial` | 2scene.js:92-99 | quitting from any state whatever gives the start state, so quitting twice is quitting once |
| `CubeSphere.SwitchThenQuit` | 2scene.js:82-99 | a switch followed by a quit returns exactly to the start state; a switch from the start state gives the sphere scene |
| `CubeSphere.QuitterClickOutcome` | 2scene.js:52-99 | a click on "Quitter" (quit, then the bubbled document click) ends in the start state, or in the sphere scene when that click also hits the cube |
| `CubeSphere.StepPreservesConsistent` | 2scene.js:65-99 | every kind of click takes a consistent state to a consistent state |
| `CubeSphere.RunPreservesConsistent` | 2scene.js:65-99 | any sequence of clicks from a consistent state keeps the five values consistent (induction on the sequence) |
| `CubeSphere.ReachableIsOneOfTwo` | 2scene.js:17-99 | every state reachable from the start by clicks is the cube scene or the sphere scene |
| `CubeSphere.Mesh.constructor` | 2scene.js:40-48 | a new mesh is visible and has no `userData.clickable` (falsy) |
| `CubeSphere.Button.constructor` | 2scene.js:58 | a new button's `style.display` is the empty string |
| `CubeSphere.Demo.Init` | 2scene.js:24-63 | the objects are distinct and fresh, and their values are the start state |
| `CubeSphere.Demo.OnClick` | 2scene.js:65-80 | the new values are the click function applied to the old ones; the invariant holds and the sphere's clickable flag is untouched |
| `CubeSphere.Demo.SwitchScene` | 2scene.js:82-90 | the new values are the switch function applied to the old ones; the invariant holds |
| `CubeSphere.Demo.QuitScene` | 2scene.js:92-99 | the new values are the quit function applied to the old ones; the invariant holds |
| `CubeSphere.Demo.QuitterClick` | 2scene.js:52-61 | the button listener and then the document listener: the new values are the Quitter-click function applied to the old ones |
| `JsNumber.TruncMod` | app.js:234-235 | JavaScript's remainder: it lies in [0, n) for a non-negative dividend and in (-n, 0] for a negative one, and differs from the dividend by a multiple of n |
| `JsNumber.TruncModVersusEuclidean` | app.js:234-235 | it equals Dafny's Euclidean `%` on non-negative dividends; on a negative dividend it is 0 or the Euclidean remainder minus n |
| `Grid.RowCol` | templet.js:74-83 | the running index i*512 + j decodes back to row i and column j |
| `Grid.PositionBounds` | templet.js:76-78 | every filled point's x and y are even and lie in [-512, 510] |
| `Grid.FilledAt` | templet.js:74-83 | in filled buffers, point i*512 + j holds coordinates (i, j, 0) and position (2*(i-256), 2*(j-256), 0) |
| `Grid.SetXYZ` | templet.js:78-79 | slots 3*index .. 3*index+2 get x, y, z where they exist and every other slot keeps its value |
| `Grid.SetX` | app.js:213-216 | slot index gets x where it exists and every other slot keeps its value |
| `Grid.WritePoint` | templet.js:76-79 | one iteration's writes land inside the buffers; they extend the filled prefix by one point and leave everything after it zero |
| `Templet.AddMesh` | templet.js:66-83 | two fresh buffers of 3*512*521 slots; points below 512*512 hold the grid; every slot from 3*512*512 on is still 0; the write indices are 0, 1, ..., 512*512-1 in order, so each point is written exactly once and the index ends at 512*512 |
| `Templet.Sketch.constructor` | templet.js:33-55 | after construction the buffers are filled as above and `time` is 1 (set to 0, then the first render) |
| `Templet.Sketch.Render` | templet.js:92-98 | `time` goes up by exactly 1 and nothing else changes |
| `Particles.Rand` | app.js:203-205 | for a draw in [0, 1) and a < b, `rand(a, b)` lies in [a, b) |
| `Particles.ScaledFraction` | app.js:204 | a positive width times a draw in [0, 1) lies in [0, width) |
| `Particles.Direction` | app.js:215 | the direction written is 1 or -1, and it is 1 exactly when the draw exceeds 0.5 |
| `Particles.AttributeBounds` | app.js:213-216 | when every draw is in [0, 1), each filled offset lies in [-1000, 1000), each speed and press value in [0.4, 1), and each direction is 1 or -1 |
| `Particles.WriteAttributes` | app.js:213-216 | one iteration's attribute writes consume draws 4p .. 4p+3 in source order; they extend the filled prefix by one point and leave the rest zero |
| `Particles.WriteParticle` | app.js:211-216 | all six writes of one iteration extend every buffer's filled prefix by one point |
| `Particles.AddMesh` | app.js:191-201 | six fresh buffers sized for 512*521 points, filled by the loops as stated for `FillGrid` |
| `Particles.FillGrid` | app.js:207-219 | after the loops, the first 512*512 points of all six buffers hold the grid and the random attributes, the rest are still 0, and the points were written once each in index order |
| `Particles.NextIndex` | app.js:234 | `Math.floor(move + 50) % 2` is -1, 0 or 1 |
| `Particles.PrevIndex` | app.js:235 | `(Math.floor(move) + 1 + 50) % 2` is -1, 0 or 1 |
| `Particles.IndicesInRange` | app.js:234-235 | both indices are in {0, 1} and differ if and only if `Math.floor(move) >= -50` |
| `Particles.IndicesBelowRange` | app.js:234-238 | when `Math.floor(move) < -50`, one index is -1 and the other 0 |
| `Particles.CrossFadeContinues` | app.js:234-235 | when `Math.floor(move)` steps up by one (from -50 or above), the new "previous" texture is the old "next" one |
| `Particles.RoundedSumRepeatsTexture` | app.js:234-235 | if the double-precision sum `move + 50` rounds up to the next integer, `next` equals `prev`, so it differs from the exact-arithmetic `next` |
| `Particles.TextureAt` | app.js:237-238 | `textures[k]` is a texture, the k-th, if and only if k is in range; otherwise it is undefined |
| `Particles.RenderedTextures` | app.js:234-238 | with two distinct textures, `render` assigns two defined and distinct textures if and only if `Math.floor(move) >= -50` |
| `Particles.Vector2.constructor` | app.js:98 | a new `Vector2` is (0, 0) |
| `Particles.Uniforms.constructor` | app.js:174-184 | the material's initial uniform values: progress 0, t1/t2 the two textures, mask, mousePressed 0, mouse and transition null, move 0, time 0 |
| `Particles.Sketch.constructor` | app.js:86-117 | textures t1 and t2, `time` 1 after the first render, `move` 0, slider 0; the first render gives t1 = second texture and t2 = first; six fresh buffers sized for 512*521 points, filled as stated for `FillGrid` |
| `Particles.Sketch.Wheel` | app.js:149-151 | `move` grows by exactly deltaY/4000 and nothing else changes |
| `Particles.Sketch.Render` | app.js:232-247 | `time` goes up by 1; t1 is `textures[prev]`, t2 is `textures[next]`, transition is the slider value, and time, move and mouse are the sketch's current values; the other uniforms are unchanged |

## Left out

- Rendering, shaders (all GLSL strings), the three.js scene graph, camera,
  `OrbitControls`, `requestAnimationFrame` scheduling and the rotation
  increments in `animate` (2scene.js:101-113): library calls, timing and
  GPU floating point.
- Raycasting and mouse-to-device-coordinate conversion (2scene.js:67-74,
  app.js:152-167). The cube hit is the input `hitsCube`. The `mousemove`
  handler's copy of the hit point into `point` is not modelled; `point` is
  a `Vector2` whose identity `render` hands to the `mouse` uniform.
- The gsap tweens of `mousePressed` on mouse down and up (app.js:133-147),
  and the dat.GUI slider that sets `settings.progress` (app.js:119-125): an
  easing library and UI plumbing. `progress` is a field that `render` reads.
- Texture and mask loading: a texture is a value named by its image file.
- test.js and mapiditraimgblender.js are not part of this model: they are
  render-target compositing, trigonometry, quaternion animation and model
  loading through foreign libraries.
- Floating point: `Float32Array` storage rounding and the double-precision
  sum in `move += deltaY / 4000` are not modelled. Values are exact integers
  and reals. With rounding, a stored offset just below 1000 could round to
  1000.
- Particles.IndicesInRange, Particles.RenderedTextures,
  Particles.CrossFadeContinues: proved in exact arithmetic. The
  double-precision rounding of `this.move + 50` (app.js:234) is not modelled.
  With it, a `move` just below an integer can make the sum round up to the
  next integer. For example, 80 wheel events of deltaY 100 give
  `move = 1.999999999999997`, and `move + 50` is then exactly 52. In that
  case `next == prev` and both texture uniforms get the same texture.
  `RoundedSumRepeatsTexture` states that outcome, with the rounded sum as
  an input.
- JsNumber.TruncMod: defined for positive divisors only, the one case the
  source uses (`% 2`). JavaScript's `-0` result is written 0, which indexes
  the same array element.
- Grid.SetXYZ: fixed to an item size of 3, and SetX to an item size of 1,
  the sizes the sketches' buffers use.
- CubeSphere.Demo.OnClick, CubeSphere.Demo.SwitchScene,
  CubeSphere.Demo.QuitScene, CubeSphere.Demo.QuitterClick: require the class invariant, which holds in
  every state the demo reaches. That the handlers act on any state is
  proved on `Snapshot`.
