# Christmas tree scene: a Dafny model

This project models the logic of an interactive 3D Christmas-tree scene. A cloud of particles (needles, ornaments, gifts, baubles and sparkles) either fills the shape of a tree or scatters in a sphere around it. The user switches between the two modes with pointer or touch presses, or with hand gestures seen by a camera. A click on the tree opens a photo gallery, which is an inertial carousel.

There are four modules, one per source file of the core, plus shared types:

- `Types` (`types.dfy`): the mode `TreeState`, the record `ParticleData`, points `Vec2` and `Vec3`, and `Option`.
- `Interaction` (`interaction.dfy`), from `App.tsx`: the application's state cells and the event handlers that change them.
  - Each handler is a pure transition function on `AppState`.
  - The class `App` has one method per event and is proved to perform exactly that transition.
  - The invariant "an open gallery implies the tree shape" is proved for every reachable state.
- `Carousel` (`carousel.dfy`), from `components/Gallery.tsx`: the gallery physics and the card placement.
  - The physics tick (friction, snap spring, exact settling, end nudge) and the drag handlers are pure functions on `CarouselState`.
  - The class `Gallery` updates its refs and an array of card styles in place.
  - `DragScenario` is a worked example rather than a property: with five images, two drags of 300 pixels reach index 2, and after release the carousel rests there.
- `Layout` (`layout.dfy`), from `utils/math.ts`: the particle layout generator.
  - The random draws are an explicit input record per particle.
  - `Math.pow`, `sqrt`, `cbrt`, `acos`, `sin` and `cos` are a record of functions. They are constrained by range laws and by the identity sin² + cos² = 1 (`Lawful`).
  - The loop `GenerateTreeData` is proved to produce, for each particle, the pure sample `SampleParticle`. Every bound of the layout is proved for every record.
- `Particles` (`particles.dfy`), from `components/ChristmasTree.tsx`: the per-frame particle animator and the top bow.
  - Position buffers are `array<real>` with three slots per particle. `InitPositions` and `AnimateLayer` update them in place. `InitPositions` is proved to write `Target` into every slot; `AnimateLayer` and `StepLayer` are proved against the recursive specifications `StepPrefix` and `StepBuffer`.
  - The class `ChristmasTree` runs the seven layers of a frame in the source's order. The gift buffer is shared by three layers, so it is stepped three times per frame.
  - The class `TopBow` eases its scale and height.

Every `sin` of the animator is the parameter `sin: real -> real`. Bounds that need `|sin| <= 1` assume it as the antecedent of an implication.

Three behaviours of the code, modelled as written:

- Opening the gallery does not reset the carousel. The refs persist, because the gallery stays mounted.
- The interpolation rate of a particle step is not capped at 1.
- With zero images the end nudge still applies: any position above -0.5 is "past the end" and loses 0.05 of velocity per tick.

## Model

| member | source | states |
|---|---|---|
| Interaction.NormalizeX | App.tsx:138 | maps [0, W] into [-1, 1]; the inverse map returns the client coordinate |
| Interaction.NormalizeY | App.tsx:139 | maps [0, H] into [-1, 1] with the top edge at +1; the inverse map returns the client coordinate |
| Interaction.LandmarkToInteraction | App.tsx:59-63 | the mirrored pointer mapping on a unit viewport; maps the unit square into [-1, 1]² |
| Interaction.PointerDown | App.tsx:124-128 | forms the tree exactly when neither the camera nor the gallery is active; otherwise no change; keeps the invariant |
| Interaction.PointerUp | App.tsx:130-134 | scatters exactly when neither the camera nor the gallery is active; otherwise no change; keeps the invariant |
| Interaction.PointerMove | App.tsx:136-150 | no change while the camera is on; otherwise only the vector changes, into [-1, 1]², and it inverts to the client position |
| Interaction.ApplyLandmark | App.tsx:58-64 | only the interaction vector changes, to the mirrored landmark mapping |
| Interaction.ApplyGesture | App.tsx:67-82 | a fist with score > 0.5 closes the gallery and forms the tree from any state; an open palm scatters only with the gallery closed; a low score or other category changes nothing; keeps the invariant |
| Interaction.ApplyRecognition | App.tsx:58-82 | landmark branch then gesture branch; with a gesture, the result is that gesture's effect (`ApplyGesture`) applied after the pointer update; the camera flags are untouched; keeps the invariant |
| Interaction.TreeClick | App.tsx:153-159 | with the gallery closed, opens it and forms the tree; with it open, nothing changes |
| Interaction.CloseGallery | App.tsx:184 | closes only the gallery; the mode is left alone |
| Interaction.ToggleCamera | App.tsx:193-195 | flips the camera flag only once the model has loaded |
| Interaction.CameraFailed | App.tsx:107-110 | turns the camera flag off and changes nothing else |
| Interaction.ModelLoaded | App.tsx:43 | sets the loaded flag and changes nothing else |
| Interaction.Apply | App.tsx:164-169 | every event keeps the invariant; only move and recognition events change the vector |
| Interaction.RunKeepsConsistent | App.tsx:124-184 | any sequence of events from a consistent state ends in a consistent state |
| Interaction.ReachableConsistent | App.tsx:18-22 | every state reachable from the initial state is consistent |
| Interaction.FistIdempotent | App.tsx:76-80 | handling a confident fist twice equals handling it once; afterwards the gallery is closed and the tree formed |
| Interaction.RepeatedFists | App.tsx:71-80 | any burst of one or more confident fists ends with the gallery closed and the tree formed, with all other cells as before |
| Interaction.ClickThenClose | App.tsx:153-159 | a click then a close request leaves the tree formed and the rest as before |
| Interaction.App.constructor | App.tsx:18-22 | the initial state: tree shape, gallery closed, camera off, model not loaded, vector at the origin |
| Interaction.App.HandlePointerDown | App.tsx:124-128 | the new state is `PointerDown` of the old |
| Interaction.App.HandlePointerUp | App.tsx:130-134 | the new state is `PointerUp` of the old |
| Interaction.App.HandleMouseMove | App.tsx:136-142 | the new state is `PointerMove` of the old at the mouse position |
| Interaction.App.HandleTouchMove | App.tsx:144-150 | the new state is `PointerMove` of the old at the first touch |
| Interaction.App.HandleRecognition | App.tsx:58-82 | the new state is `ApplyRecognition` of the old |
| Interaction.App.HandleTreeClick | App.tsx:153-159 | the new state is `TreeClick` of the old |
| Interaction.App.HandleGalleryClose | App.tsx:184 | the new state is `CloseGallery` of the old |
| Interaction.App.HandleCameraToggle | App.tsx:194-195 | the new state is `ToggleCamera` of the old |
| Interaction.App.HandleCameraFailure | App.tsx:107-110 | the new state is `CameraFailed` of the old |
| Interaction.App.HandleModelLoaded | App.tsx:43 | the new state is `ModelLoaded` of the old |
| Carousel.Round | components/Gallery.tsx:36 | the nearest integer, with halves rounding up |
| Carousel.Coast | components/Gallery.tsx:31-48 | either the new velocity 0.92·v + 0.05·(round(p) − p) is integrated into the position, or the carousel settles exactly on round(p) with zero velocity; settling happens exactly under the threshold test; when it does not settle, the new position is the old one plus the new velocity |
| Carousel.Nudge | components/Gallery.tsx:51-55 | +0.05 below -0.5, −0.05 beyond count − 0.5, otherwise no change; at most one applies, and the position is never clamped |
| Carousel.Tick | components/Gallery.tsx:28-55 | a closed gallery changes nothing; while dragging the position is kept and only the nudge applies; otherwise coast then nudge |
| Carousel.Start | components/Gallery.tsx:94-100 | a drag starts at the pointer, velocity zero, position kept |
| Carousel.Move | components/Gallery.tsx:102-110 | ignored when not dragging; otherwise the position moves by −dx/300 and the pointer is remembered |
| Carousel.End | components/Gallery.tsx:112-118 | only the drag flag changes |
| Carousel.MovesTelescope | components/Gallery.tsx:102-110 | any run of moves shifts the position by −(xn − x0)/300 in total |
| Carousel.MovesIgnoredWhenIdle | components/Gallery.tsx:103 | moves without a drag change nothing |
| Carousel.DragSession | components/Gallery.tsx:94-118 | press, moves and release: the position moves by −(xn − x0)/300 and the velocity is zero |
| Carousel.RestingIsFixed | components/Gallery.tsx:31-55 | at rest on a valid index, a tick changes nothing |
| Carousel.Placement | components/Gallery.tsx:64-73 | scale in [0.6, 1], opacity in [0.3, 1], z-index at most 100, depth at most 0, translation on the side of the offset; the focused card has the identity placement |
| Carousel.PlacementSymmetric | components/Gallery.tsx:67-73 | mirrored offsets agree on depth, scale, opacity and z-index, and negate translation and yaw |
| Carousel.PlacementRecedes | components/Gallery.tsx:67-73 | a card further from focus is never larger, brighter, nearer or stacked higher |
| Carousel.Gallery.constructor | components/Gallery.tsx:15-20 | all refs at zero, not dragging, no card styled yet |
| Carousel.Gallery.Animate | components/Gallery.tsx:28-79 | the new physics state is `Tick` of the old; when open, every card gets the placement of its offset from the new position |
| Carousel.Gallery.HandleStart | components/Gallery.tsx:94-100 | the new state is `Start` of the old |
| Carousel.Gallery.HandleMove | components/Gallery.tsx:102-110 | the new state is `Move` of the old |
| Carousel.Gallery.HandleEnd | components/Gallery.tsx:112-118 | the new state is `End` of the old |
| Layout.RandFloat | utils/math.ts:58 | a real in [low, high) |
| Layout.Polar | utils/math.ts:19 | a point at squared distance r² from the centre |
| Layout.HeightExponent | utils/math.ts:22 | the height exponent is positive for every cone kind |
| Layout.TreePosition | utils/math.ts:11-33 | cone kinds: height in [-7, 7) and horizontal distance within the cone radius at that height; sparkles: height in [-8, 10) and distance below 8 |
| Layout.ConeRadius | utils/math.ts:25 | the cone radius lies in [0, 6] over the tree's height |
| Layout.ScatterPosition | utils/math.ts:35-45 | strictly inside the sphere of radius 30 centred 5 above the origin |
| Layout.RotationSeed | utils/math.ts:48-52 | three angles in [0, π) |
| Layout.ScaleRange | utils/math.ts:57-72 | each kind's range is non-empty |
| Layout.Scale | utils/math.ts:57-72 | the scale lies in its kind's range |
| Layout.Color | utils/math.ts:61-69 | gifts and baubles, and only they, get a colour, from their own palette |
| Layout.SampleParticle | utils/math.ts:11-82 | id i, both positions, scale, rotation, colour and a speed in [0.02, 0.05) |
| Layout.GenerateTreeData | utils/math.ts:4-86 | exactly count records; record i is the sample of draw i, has id i, and meets every layout bound |
| Layout.SampleInLayout | utils/math.ts:11-82 | every sample meets every layout bound |
| Particles.Lerp | components/ChristmasTree.tsx:238 | the distance to b shrinks by the factor 1 − t; for t in [0, 1] the result lies between a and b |
| Particles.LerpVec | components/ChristmasTree.tsx:238 | interpolates each coordinate on its own |
| Particles.LerpRate | components/ChristmasTree.tsx:234-236 | speedMult·delta, doubled only for non-sparkles in tree shape, with no cap |
| Particles.FloatOffset | components/ChristmasTree.tsx:240-243 | zero for non-sparkles in tree shape; otherwise at most 0.001 (scattered) or 0.02 (sparkles) when the sine is in [-1, 1] |
| Particles.StepParticle | components/ChristmasTree.tsx:226-243 | x and z interpolate, y interpolates plus drift; in tree shape a non-sparkle closes each distance by the factor 1 − rate, stays between its old value and its target, and stays at its target once there |
| Particles.Pulse | components/ChristmasTree.tsx:252 | the sparkle scale factor lies in [0.4, 1] |
| Particles.ParticleTransform | components/ChristmasTree.tsx:249-270 | the position is the stepped one; scale is uniform (pulsing for sparkles) or a ribbon band; rotation tumbles while scattered or for sparkles, and is damped otherwise |
| Particles.RotationOverTime | components/ChristmasTree.tsx:258-266 | rotation ignores time for a non-sparkle in tree shape; otherwise it advances at 0.2 and 0.1 per second on the first two axes |
| Particles.WriteVec | components/ChristmasTree.tsx:245-247 | writes particle i's slots and no others |
| Particles.StepPrefix | components/ChristmasTree.tsx:225-247 | the first k particles' slots hold their stepped positions; later slots are untouched |
| Particles.StepBuffer | components/ChristmasTree.tsx:225-247 | every particle's slots hold its stepped position, including the persisted drift; slots past the data are untouched |
| Particles.StepIf | components/ChristmasTree.tsx:223 | an unmounted layer leaves the buffer as it was |
| Particles.EmittedPrefix | components/ChristmasTree.tsx:249-273 | one transform per stepped particle, in order, each equal to `ParticleTransform` of the particle at its stepped position: the pulse scale, the ribbon band, the tumbling rotation and the damping override |
| Particles.LayerTransforms | components/ChristmasTree.tsx:249-273 | one transform per particle, each equal to `ParticleTransform` of the particle at the position the step wrote into the buffer |
| Particles.EmitIf | components/ChristmasTree.tsx:223 | transforms are emitted exactly when the mesh is mounted, one per particle, each equal to `ParticleTransform` of the stepped particle |
| Particles.InitPositions | components/ChristmasTree.tsx:181-188 | each particle's slots hold its target for the mode; nothing else is touched |
| Particles.WriteSlot | components/ChristmasTree.tsx:245-247 | the buffer becomes `WriteVec` of the old one |
| Particles.ReadSlot | components/ChristmasTree.tsx:228-232 | reads particle i's slots |
| Particles.MoveParticle | components/ChristmasTree.tsx:226-243 | computes `StepParticle` |
| Particles.AnimateLayer | components/ChristmasTree.tsx:213-276 | without a mesh nothing changes and nothing is emitted; otherwise the buffer becomes `StepBuffer` of the old one and the layer's transforms are emitted |
| Particles.StepLayer | components/ChristmasTree.tsx:225-274 | the buffer becomes `StepBuffer` of the old one, and the result is `LayerTransforms` |
| Particles.StepsContract | components/ChristmasTree.tsx:238 | after n steps in tree shape, a non-sparkle's distance to its target is the initial distance times (1 − rate)^n on each axis |
| Particles.GiftFrame | components/ChristmasTree.tsx:291-298 | the gift buffer after the gift layer and both ribbon layers |
| Particles.GiftFrameSteps | components/ChristmasTree.tsx:291-298 | with all three meshes mounted, a gift's position after one frame is three successive steps from its position before |
| Particles.GiftsStepThrice | components/ChristmasTree.tsx:291-298 | with all three meshes mounted, in tree shape each gift's distance to its target shrinks by (1 − rate)³ on each axis in one frame |
| Particles.ChristmasTree.constructor | components/ChristmasTree.tsx:175-179 | five fresh, distinct, zero-filled buffers of three slots per particle |
| Particles.ChristmasTree.LayoutEffect | components/ChristmasTree.tsx:190-196 | every buffer holds its particles' targets for the mode at mount |
| Particles.ChristmasTree.Frame | components/ChristmasTree.tsx:278-302 | the group eases toward the vector; every buffer except the gifts' is stepped once, the gifts' three times, each only when its mesh is mounted; each layer emits the transforms of its own step |
| Particles.BowStep | components/ChristmasTree.tsx:62-74 | scale and height close on their mode's targets by 1 − 3δ and 1 − 2δ and stay in range; in tree shape the yaw is within 0.05, otherwise it is untouched |
| Particles.TopBow.constructor | components/ChristmasTree.tsx:87 | unit scale, height 7.5, no yaw |
| Particles.TopBow.Frame | components/ChristmasTree.tsx:64-76 | the new state is `BowStep` of the old when mounted; otherwise nothing changes |

## Left out

- Loading the gesture model, `recognizeForVideo`, camera streams and their teardown, and frame scheduling (`requestAnimationFrame`, `cancelAnimationFrame`). Their outcomes become events (`ModelLoadedEvent`, `RecognitionEvent`, `CameraFailureEvent`) or method calls (`Frame`, `Animate`).
- React semantics. State batching, stale closures in the prediction callback, and `useMemo`/`useLayoutEffect` timing are not modelled. Each handler is one atomic transition on the current state.
- A failed model load is not modelled. The code only logs it, and the loaded flag stays false.
- Rendering: the gift texture, materials, geometries, matrix composition with `updateMatrix`/`setMatrixAt`, and instance colours with `setColorAt`. Transforms are emitted as records instead of matrices.
- Card styles are stored as placement records, not CSS strings.
- The hit-box mesh, the JSX markup and the scene setup in `components/Scene.tsx`.
- The unused `currentIndex`, `isDragging`, `startX` and `MAX_VELOCITY` of the gallery.
- IEEE doubles and `Float32Array` rounding. All values are exact reals.
- Randomness and distributions. The draws are inputs, so claims such as "uniform in the sphere" or "denser at the bottom" are not stated. How many `Math.random` calls an iteration makes depends on the kind. The model gives each particle one draw record with a field per call, and a field a kind does not use is ignored.
- Trigonometry and roots are uninterpreted. `Lawful` states only the range laws the bounds need (pow, sqrt and cbrt of [0, 1) stay in [0, 1), and sin² + cos² = 1). `acos` is unconstrained.
- Convergence of the carousel's settling over many ticks is not proved. Only single ticks and the rest state are.
- Interaction.App.HandleTouchMove: requires at least one touch point. The source reads `touches[0]` unguarded, and a touch-move event always carries one.
- Interaction.PointerMove: requires a positive viewport size. The source divides by the window's inner size, which a browser reports as positive.
- Particles.ChristmasTree.Frame: takes a mesh as mounted or not per frame (`Mounted`). How a ref gets attached is not modelled.
