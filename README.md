# Curves draw-in/draw-out animation: a Dafny model

This project models the core of a small three.js scene. Two mirrored pairs of bezier
curves, each pair green and blue with teardrop end-caps, are drawn in towards a glowing
orb and drawn out again. The model covers:

- **Progress state machine** (`Animation`, from `curves/src/animation.ts`). One
  `AnimState` record is replaced on every transition. `StartRun` begins a run in the
  state's direction and nudges `tEnd` off the boundary it is leaving. `StopRun` ends a
  run. `ChooseDirection` picks forward or backward. `TickStep` is the time-based advance.
  It caps `dt` at `maxDeltaTime`, integrates and clamps progress, and snaps to 1 or 0 on a
  forward or backward completion. Each start, stop and completion bumps `runId`. A
  sequence of calls (`Run`) is used to state lifecycle invariants.
- **Orb sub-animator** (`Orb`, from `curves/src/orb.ts`): the pure forward drop-in and
  backward fade-out transforms.
- **Numeric helpers** (`MathUtils`, from `curves/src/math.ts`): three.js's `clamp` and
  `lerp`, and the cubic easings.
- **Configuration table** (`Configuration`, from `curves/src/config.ts`): screen classes,
  point sizes and the config record.
- **Orthographic camera arithmetic** (`Camera`, from `curves/src/camera.ts`). The camera
  is a value record, and refitting its frustum returns a new record.
- **Curve buffers, draw range, caps and layout** (`Curves`, from `curves/src/curves.ts`).
  The Float32Array position buffers are Dafny `array<real>`s written in place. Geometries,
  caps and groups are classes whose fields the methods update.
- **Viewport-to-world mapping** (`Targeting`, from `curves/src/targeting.ts`).

All numbers are `real`. `Math.pow(x, 3)` is `x * x * x`, `Math.floor` is `.Floor`, and
timestamps are milliseconds. A Float32Array store outside the array is ignored, as in
JavaScript; `Curves.Slot` models that.

Three points about the code that the model keeps as written:

- The first tick after a start advances by zero, because `lastTime` is absent. Later
  ticks are capped at `maxDeltaTime`, which is 1/30 s in `MakeConfig`. See
  `Animation.FirstTickAfterStartDoesNotComplete` and `Animation.ShippedConfigCapsStep`.
- `AnimState` has the eight fields that `animation.ts` reads and writes.
  `forwardStartT` is a parameter of `ComputeOrbForward`.
- `startRun` does not choose the direction. It runs in `s.direction`, and whatever sets
  that field is not part of this model.

## Model

| member | source | states |
|---|---|---|
| MathUtils.Clamp | curves/src/math.ts:1 | three's clamp: for lo ≤ hi the result lies in [lo,hi]; it is the identity inside the interval and the nearer bound outside it |
| MathUtils.ClampMonotone | curves/src/math.ts:1 | clamping preserves order |
| MathUtils.Lerp | curves/src/math.ts:1 | three's lerp: lerp(x,y,0) = x and lerp(x,y,1) = y |
| MathUtils.LerpBetween | curves/src/math.ts:1 | for t in [0,1], lerp lies between its two ends |
| MathUtils.EaseOutCubic | curves/src/math.ts:3-5 | 1 - (1 - t)³ stays at or below 1 for t ≤ 1 and at or above 1 for t ≥ 1; its ends, range, monotonicity and mirror identity are the lemmas below |
| MathUtils.EaseInCubic | curves/src/math.ts:7-9 | t³ keeps the sign of t; its ends, range and monotonicity are the lemmas below |
| MathUtils.EaseOutCubicEnds | curves/src/math.ts:3-5 | easeOutCubic(0) = 0 and easeOutCubic(1) = 1 |
| MathUtils.EaseInCubicEnds | curves/src/math.ts:7-9 | easeInCubic(0) = 0 and easeInCubic(1) = 1 |
| MathUtils.EaseSymmetry | curves/src/math.ts:3-9 | easeOutCubic(t) = 1 - easeInCubic(1 - t) for every t |
| MathUtils.EaseInCubicMonotone | curves/src/math.ts:7-9 | easeInCubic is non-decreasing (on all reals, so on [0,1]) |
| MathUtils.EaseOutCubicMonotone | curves/src/math.ts:3-5 | easeOutCubic is non-decreasing (on all reals, so on [0,1]) |
| MathUtils.EaseInCubicRange | curves/src/math.ts:7-9 | easeInCubic maps [0,1] into [0,1] |
| MathUtils.EaseOutCubicRange | curves/src/math.ts:3-5 | easeOutCubic maps [0,1] into [0,1] |
| Configuration.GetScreenWidth | curves/src/config.ts:3-5 | S iff w ≤ 500, M iff 500 < w ≤ 768, L iff 768 < w ≤ 1024, XL iff w > 1024; monotone by ScreenWidthMonotone |
| Configuration.PointPxForScreen | curves/src/config.ts:7-9 | the point size is entry Rank(sw) of the table 3, 6, 8, 9, so it lies in [3,9]; strictly increasing by PointPxStrictlyIncreasing |
| Configuration.ScreenWidthMonotone | curves/src/config.ts:3-5 | a wider window never gets a smaller screen class |
| Configuration.PointPxStrictlyIncreasing | curves/src/config.ts:7-9 | point sizes S→3, M→6, L→8, XL→9 grow strictly with the class |
| Configuration.PointPxMonotoneInWidth | curves/src/config.ts:3-9 | a wider window never gets smaller points |
| Configuration.MakeConfig | curves/src/config.ts:11-33 | the green cap is 1.2 × pointPx and the blue cap 1.4 × pointPx, so blue > green > 0; the configuration is WellFormed; every other field is given: viewHeight = 20, gutterWorld = 1, orbRadius = 0.5, green = 0x00ff00, blue = 0x0000ff, maxDeltaTime = 1/30, speed = 1, eps = 0.0001, backwardFadeFraction = 0.4, lineSegments = 2000 |
| Animation.StartRun | curves/src/animation.ts:4-21 | sets running, runId + 1, clears lastTime, sets hasStartedLifecycle, keeps direction and both completion flags; forward with tEnd ≤ eps gives eps, backward with tEnd ≥ 1 - eps gives 1 - eps, otherwise tEnd is unchanged |
| Animation.StopRun | curves/src/animation.ts:23-25 | clears running, runId + 1, clears lastTime; every other field unchanged |
| Animation.ChooseDirection | curves/src/animation.ts:27-29 | backward exactly when a forward run has completed |
| Animation.DeltaTime | curves/src/animation.ts:36-37 | dt is either maxDeltaTime or the elapsed (now - lastTime)/1000 (with now standing in for an absent lastTime); it is the elapsed time when that is within the cap and the cap when it is over; so dt ≤ maxDeltaTime; for maxDeltaTime ≥ 0, dt = 0 when lastTime is absent and dt ≥ 0 for a non-decreasing clock |
| Animation.Advanced | curves/src/animation.ts:39-40 | progress is tEnd + sign·dt·speed when that lies in [0,1], 0 below and 1 above, so it always lies in [0,1] |
| Animation.TickStep | curves/src/animation.ts:31-71 | on a stopped state it returns the state unchanged with didStop and no completion; otherwise tEnd lies in [0,1]; a forward completion fires exactly when forward and progress ≥ 1 - eps and gives tEnd 1, not running, hasCompletedForwardRun; a backward completion fires exactly when backward and progress ≤ eps and gives tEnd 0, not running, lifecycleCompleted; never both; runId + 1 exactly on a completion; a running state stops exactly on a completion; otherwise it keeps running with lastTime = now |
| Animation.FirstRunIsForward | curves/src/animation.ts:27-29 | the initial state chooses a forward first run |
| Animation.BackwardAfterForwardCompletion | curves/src/animation.ts:27-54 | after a tick that completes forward, the next run chosen is backward |
| Animation.TickMovesInDirection | curves/src/animation.ts:36-42 | for a running state with tEnd in [0,1], a non-decreasing clock, speed ≥ 0 and maxDeltaTime ≥ 0, a tick moves tEnd only in the run's direction |
| Animation.FirstTickAfterStartDoesNotComplete | curves/src/animation.ts:13-58 | with 0 < eps < 1/2 and maxDeltaTime ≥ 0, the first tick after a start advances by zero and does not complete when the run starts short of its target boundary (in particular forward from 0 and backward from 1) |
| Animation.ForwardCompletesNearEnd | curves/src/animation.ts:44-54 | for speed ≥ 0, maxDeltaTime ≥ 0 and a non-decreasing clock, a running forward state with 1 - eps ≤ tEnd ≤ 1 completes on its next tick with tEnd = 1 |
| Animation.BackwardCompletesNearStart | curves/src/animation.ts:57-67 | for speed ≥ 0, maxDeltaTime ≥ 0 and a non-decreasing clock, a running backward state with 0 ≤ tEnd ≤ eps completes the lifecycle on its next tick with tEnd = 0 |
| Animation.TickAdvancesByElapsedTime | curves/src/animation.ts:36-42 | a running tick whose elapsed time is within the cap and that reaches no boundary keeps running with the same runId and lastTime = now, and moves tEnd by exactly ±(now - lastTime)/1000 × speed in the run's direction |
| Animation.ShippedConfigCapsStep | curves/src/animation.ts:36-42 | with the shipped config, a running forward tick from tEnd = eps, 100 ms after the previous one, advances by 1/30, not by 0.1 |
| Animation.RunIdNeverDecreases | curves/src/animation.ts:4-71 | over any sequence of calls runId never decreases and grows by at least one per start and per stop |
| Animation.RunKeepsProgressInRange | curves/src/animation.ts:4-71 | over any sequence of calls, with eps in [0,1], tEnd stays in [0,1] |
| Animation.WellFormedSessionKeepsProgressInRange | curves/src/animation.ts:4-71 | under any WellFormed configuration, a session that begins at the initial state keeps tEnd in [0,1] whatever calls it makes |
| Animation.ShippedSessionKeepsProgressInRange | curves/src/config.ts:11-33 | under the shipped configuration of every screen class, a session keeps tEnd in [0,1] |
| Animation.RunKeepsCompletionFlags | curves/src/animation.ts:4-71 | lifecycleCompleted and hasStartedLifecycle are never cleared, and once a forward run has completed every later direction chosen is backward |
| Orb.ForwardProgress | curves/src/orb.ts:108 | local progress lies in [0,1] and reaches 1 exactly when tEnd - forwardStartT ≥ max(1e-6, 1 - forwardStartT) |
| Orb.ComputeOrbForward | curves/src/orb.ts:103-119 | always visible; state is visible exactly when local progress reaches 1, else entering; opacity in [0,1], scale in [0.92,1], rotZ in [0,0.08] |
| Orb.OrbForwardAtStart | curves/src/orb.ts:108-118 | at tEnd = forwardStartT: entering, z = cameraZ + 2, opacity 0, scale 0.92, rotZ 0.08 |
| Orb.OrbForwardAtEnd | curves/src/orb.ts:108-118 | at tEnd = 1 with 1 - forwardStartT ≥ 1e-6: visible, z 0, opacity 1, scale 1, rotZ 0, whatever forwardStartT is |
| Orb.OrbForwardOpacityMonotone | curves/src/orb.ts:108-115 | forward opacity is non-decreasing in tEnd |
| Orb.BackwardProgress | curves/src/orb.ts:123 | fade progress lies in [0,1], and for a positive fraction reaches 1 exactly when 1 - tEnd ≥ backwardFraction |
| Orb.ComputeOrbBackward | curves/src/orb.ts:122-133 | state is exiting or gone, visible exactly when exiting; for a positive fraction the orb is gone exactly when tEnd ≤ 1 - backwardFraction; opacity in [0,1], scale in [0.92,1], rotZ in [-0.12,0] |
| Orb.OrbBackwardAtStart | curves/src/orb.ts:123-131 | at tEnd = 1: exiting, visible, opacity 1, scale 1, rotZ 0 |
| Orb.OrbBackwardGoneAfterFade | curves/src/orb.ts:123-131 | for fraction > 0 and tEnd ≤ 1 - fraction: gone, invisible, opacity 0, scale 0.92, rotZ -0.12 |
| Orb.OrbBackwardOpacityMonotone | curves/src/orb.ts:123-129 | for a positive fade fraction, backward opacity is non-decreasing in tEnd, so the orb only fades as tEnd falls |
| Camera.ComputeOrthoFrustum | curves/src/camera.ts:4-8 | the frustum is viewHeight tall and viewHeight × aspect wide, centred on the origin |
| Camera.ApplyOrthoFrustum | curves/src/camera.ts:10-16 | the camera takes the frustum's four planes and keeps its zoom |
| Camera.UpdateOrthoCamera | curves/src/camera.ts:18-22 | the refitted camera is viewHeight tall and viewHeight × width/height wide, centred, zoom kept |
| Camera.GetVisibleSize | curves/src/camera.ts:24-28 | width × zoom = right - left and height × zoom = top - bottom |
| Camera.WorldUnitsPerPixelOrtho | curves/src/camera.ts:30-35 | world units per pixel × pixel height = visible height |
| Camera.VisibleSizeAfterUpdate | curves/src/camera.ts:18-28 | at zoom 1 and a non-zero height, a refitted camera shows (viewHeight × width/height, viewHeight) |
| Curves.Slot | curves/src/curves.ts:18-20 | a Float32Array store: slot k takes the value when k is inside the buffer, every other slot is kept, and a store outside the buffer changes nothing |
| Curves.WriteSlot | curves/src/curves.ts:18-20 | the array becomes Slot of its old contents, so an out-of-range store is ignored |
| Curves.WithVertex | curves/src/curves.ts:93 | setXYZ keeps the buffer length and, for a vertex inside the buffer, stores x, y and z in its three slots; WithVertexFrame shows that nothing else changes |
| Curves.WithVertexFrame | curves/src/curves.ts:90-94 | writing vertex k changes exactly its three slots (when inside the buffer) and nothing else |
| Curves.FilledPrefixAt | curves/src/curves.ts:16-21 | after i loop iterations, slot j holds coordinate j mod 3 of point j div 3 when that point is already written, else 0 |
| Curves.CurvePositionsLayout | curves/src/curves.ts:16-21 | the filled buffer has (lineSegments + 1) × 3 slots; every z slot is 0; vertex v holds pts[v] when present and 0 otherwise |
| Curves.ZeroBuffer | curves/src/curves.ts:15 | `new Float32Array(size)` is a fresh buffer of size zeros |
| Curves.WriteVertex | curves/src/curves.ts:17-19 | the three stores of one vertex leave the array equal to WithVertex of its old contents |
| Curves.FillCurvePositions | curves/src/curves.ts:16-21 | the fill loop returns a fresh buffer equal to the specification of the filled buffer |
| Curves.CurveGeometry.constructor | curves/src/curves.ts:16-25 | a new geometry holds the filled buffer and draws all lineSegments + 1 vertices |
| Curves.CurveGeometry.SetDrawRange | curves/src/curves.ts:170-171 | sets the draw range start and count |
| Curves.SetExactEndPoint | curves/src/curves.ts:84-95 | the buffer becomes the old buffer with vertex count - 1 set to the curve's point at tEnd and z = 0 |
| Curves.DrawCount | curves/src/curves.ts:168 | count ≥ 2; for tEnd in [0,1] and lineSegments ≥ 1, count ≤ lineSegments + 1 (the vertices allocated); it is 2 when tEnd × lineSegments < 1 and floor(tEnd × lineSegments) + 1 otherwise |
| Curves.DrawCountMonotone | curves/src/curves.ts:168 | for lineSegments ≥ 0, the draw count is non-decreasing in tEnd |
| Curves.DrawCountAtEnd | curves/src/curves.ts:25 | for lineSegments ≥ 1, at tEnd = 1 every allocated vertex is drawn |
| Curves.EndPointInBuffer | curves/src/curves.ts:16 | for tEnd in [0,1] and lineSegments ≥ 1, the end-point vertex lies inside the allocated buffer, so its stores are never dropped |
| Curves.CapTangentParam | curves/src/curves.ts:109 | the tangent parameter lies in [0.0001, 0.9999] and equals tEnd inside that range |
| Curves.CapScale | curves/src/curves.ts:114-116 | scale × groupScale = desiredPx × wpp for a non-zero group scale, and scale = desiredPx × wpp for group scale 0 |
| Curves.UpdateCap | curves/src/curves.ts:97-117 | the cap sits at the curve point minus the origin offset in z = 0, is rotated about z by the tangent angle at the clamped parameter, and has the pixel-sized scale |
| Curves.CreateCurveInstance | curves/src/curves.ts:119-158 | a fresh, Valid instance whose two geometries hold the filled buffers and draw all lineSegments + 1 vertices, whose caps sit at z = 3 and z = 4 shifted by minus the bounding-box centre, in an unscaled group at the origin, with that centre as originOffset |
| Curves.Instance.constructor | curves/src/curves.ts:150-158 | an instance built from distinct green and blue geometries, buffers and caps holds exactly those parts and satisfies Valid() |
| Curves.UpdateCurveInstance | curves/src/curves.ts:161-181 | both geometries draw DrawCount(tEnd) vertices from 0, both buffers get the exact end point at vertex count - 1, and both caps are placed, rotated and scaled by their pixel sizes |
| Curves.ComputeLayout | curves/src/curves.ts:183-198 | targetWidth ≥ 0.001 and ≥ half the visible width less the gutter (equal above the floor); xCenter - targetWidth/2 = gutter/2; each scale × its base width = targetWidth |
| Curves.LayoutEdges | curves/src/curves.ts:195-205 | placed at ∓xCenter, the instances' inner edges are exactly one gutter apart, and above the floor their outer edges are half a gutter inside the visible edges |
| Curves.ApplyLayout | curves/src/curves.ts:200-206 | the right group gets scaleRight at (xCenter, 0, 0); the left group, when distinct, gets scaleLeft at (-xCenter, 0, 0) |
| Targeting.GetVisibleBounds | curves/src/targeting.ts:11-17 | each of left, right, top and bottom is the camera's plane divided by the zoom; the bounds span the visible size |
| Targeting.GetCornerOrigins | curves/src/targeting.ts:19-31 | bottomLeft = (left + pad, bottom + pad) and topRight = (right - pad, top - pad) with pad = padPx × world units per pixel |
| Targeting.WorldFromViewport | curves/src/targeting.ts:33-43 | u = 0 gives the left edge and u = 1 the right edge; v = 0 gives the bottom edge and v = 1 the top edge; separability, affinity and monotonicity are the lemmas below |
| Targeting.WorldFromViewportCorners | curves/src/targeting.ts:33-43 | (0,0) maps to the bottom-left corner and (1,1) to the top-right corner |
| Targeting.WorldFromViewportSeparable | curves/src/targeting.ts:38-42 | x depends only on u and y only on v |
| Targeting.WorldFromViewportAffine | curves/src/targeting.ts:38-42 | the mapping sends weighted averages of viewport points to the same weighted averages of world points |
| Targeting.WorldFromViewportMonotone | curves/src/targeting.ts:38-42 | with right ≥ left and top ≥ bottom, each coordinate is non-decreasing in its fraction |
| Targeting.CornerOriginsInside | curves/src/targeting.ts:24-30 | for a non-negative pad in world units (padPx × wpp ≥ 0) each corner origin lies on the inner side of its edges; when twice the pad fits in the width and the height, both origins lie inside the visible bounds |
| Targeting.CornerOriginsUnpadded | curves/src/targeting.ts:24-43 | with no padding the corner origins are the viewport points (0,0) and (1,1) |

## Left out

- Three.js object construction, mutation and disposal are not modelled beyond the state
  the curve functions read. This covers `create2DCurve`, the mesh and material built by
  `makeTeardropCap`, and `setInstanceVisible` in `curves/src/curves.ts`;
  `makeSolidAlphaTexture`, `makePlayIcon`, `createOrb` and the `setOrb*`/`applyOrb*`
  setters in `curves/src/orb.ts`; and all of `curves/src/lifecycle.ts`. These are calls
  into a library whose behaviour cannot be seen.
- Curves.CreateCurveInstance: takes the bounding-box centre and width as parameters,
  because `normalizeGroupOrigin` and the final `Box3` measure meshes inside three.js. It
  keeps the caps' z of 3 and 4 (`setObjectZ`) and their shift by the centre. It does not
  model the z of the two curve objects, their shift by the centre, or `renderOrder`: no
  modelled operation reads them.
- Curve evaluation (`getPoint`, `getTangent` followed by `atan2`, and `getPoints`)
  happens inside three.js. `Curves.Curve` carries the first two as opaque total
  functions. The fill loop takes the sampled points as a parameter.
- `makeCornerToOrbCurves` (`curves/src/targeting.ts:53-118`) is not modelled. It is
  float geometry built on vector length/sqrt.
- DOM and scheduling are not modelled: `requestAnimationFrame`, the key and resize
  listeners, and `curves/src/main.ts` and `first-contact/src/main.ts` entirely. This
  includes the older ping-pong loop in `curves/src/main.ts`.
- The frame driver is not in any of the modelled files. That leaves out the stale-`runId`
  check, the guarded start that refuses to start after `lifecycleCompleted`, orb setup on
  start, the teardown hook and `forwardStartT` bookkeeping. `runId` and lifecycle
  properties are stated over the `animation.ts` functions only.
- The renderer-side effects `updateProjectionMatrix`, `needsUpdate` and `renderOrder`
  carry no behaviour to state.
- IEEE-754 behaviour is not modelled: Float32 rounding of stored values, NaN, and
  infinities. Because of this, a divisor that is zero in JavaScript (giving Infinity or
  NaN) is excluded by a `requires` on the members below.
- Orb.BackwardProgress / Orb.ComputeOrbBackward: require `backwardFraction != 0`.
- Camera.UpdateOrthoCamera: requires `height != 0`.
- Camera.GetVisibleSize, Targeting.GetVisibleBounds, Targeting.WorldFromViewport: require `zoom != 0`.
- Camera.WorldUnitsPerPixelOrtho, Targeting.GetCornerOrigins, Curves.UpdateCurveInstance: require `zoom != 0` and a non-zero pixel height.
- Curves.ComputeLayout: requires non-zero base widths and `cam.zoom != 0`.
- Curves.FillCurvePositions / Curves.CurveGeometry.constructor: take `lineSegments` as a
  `nat`. A negative size makes `new Float32Array` throw; that case is not modelled.
- Curves.UpdateCurveInstance: requires `Instance.Valid()`, meaning the green and blue
  geometries, buffers and caps are distinct objects. Shared parts (aliasing) are not
  modelled.
- Curves.Group: three's group scale is a vector. The model stores one uniform factor,
  because the source only sets it with `setScalar` and reads `scale.x`.
