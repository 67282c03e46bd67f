# farancanvas core in Dafny

farancanvas is a small 2D game engine for the browser. All of it lives in one
script, `farancanvas.js`. It has no entity-component system. Each entity
instead gets *controllers*: plain functions that the script calls again and
again through `window.setInterval`. This project models the core of the
engine:

- **Vectors** (`vectors.dfy`): the `Vector3` value and its operations
  `isEqual`, `plus`, `toPerPixel` and `toScreenFormat`. `toScreenFormat` is the
  world-to-screen projection for the three drawing conventions ("normal" /
  "standard", "centered" / "center", "canvas" / "javascript").
- **Array helpers** (`array_helpers.dfy`): the prototype helpers `reversed`,
  `repeat`, `remove` and `min0`, and the free function `Range`.
- **World** (`world.dfy`): the entities (`RawImage`, `Sprite`, `Square`,
  `Text`), the `Scene` objects, and the global scene registry `sceneIndex`
  with its active-scene pointer `currentScene`. Also the scene switch
  `LoadScene` (teardown, then resolution by name, index or reference),
  `scene.loadScene()`, the start-up `window.onload`, the per-scene listener
  bookkeeping `AddEventListener` / `RemoveEventListener`, and `Destroy`.
- **Controllers** (`controllers.dfy`):
  - `RigidbodyController`, one integration tick.
  - `AnimationController`, frame cycling over a shared counter.
  - `SpriteCollisionDetector`, the box-overlap scan with dispatch by tag.
  - The immediate effect of `push`.

Entity and scene objects are Dafny classes whose methods update their
fields. `Vector3` is an immutable datatype, and entity fields that hold
vectors are reassigned. Callbacks, interval handles and audio elements are
opaque identifiers. The host effects become engine state:

- `Engine.liveTimers` holds the interval handles that were started and have
  not yet been cleared.
- `Engine.documentListeners` holds the (event type, handler) pairs attached to
  the document.

The tick rate `fps` and the surface parameters (`canvas.height`,
`canvas.perPixel`, `canvas.drawType`) are parameters.

Behaviours of the code that a reader might not expect, and that the model
keeps:

- `RigidbodyController` integrates every entity. It never reads the
  `rigidbody` flag.
- `LoadScene` has several gaps in its teardown:
  - It does not clear the timers started by `Update`, which live in
    `myInterval`.
  - It does not empty the listener map or `rawImageList`.
  - It assigns the empty list to `audio`, not to `audioList`.
- `RemoveEventListener` computes a filtered copy of the scene's listener
  list and then drops it. Only the document listener is detached.
- The collision scan does not skip the scanning sprite itself.
- `Destroy` removes the entity only from `spriteList`. Its intervals keep
  running.

## Model

| member | source | states |
|---|---|---|
| Vectors.With | farancanvas.js:139-141 | writing one axis sets that axis and leaves the other two unchanged |
| Vectors.AxesDetermine | farancanvas.js:128-143 | two vectors that agree on every axis are the same vector |
| Vectors.IsEqual | farancanvas.js:128-134 | the match counter reaches 3 exactly when the two vectors are equal |
| Vectors.Plus | farancanvas.js:137-143 | every axis of the result is the sum of the operands' axes |
| Vectors.PlusLaws | farancanvas.js:137-143 | `plus` is commutative and has the zero vector as identity |
| Vectors.ToPerPixel | farancanvas.js:146-148 | every axis of the result is that axis scaled by the surface's per-pixel factor for it |
| Vectors.ToPerPixelAdditive | farancanvas.js:146-148 | converting a sum to pixels equals summing the converted parts |
| Vectors.ToScreenFormat | farancanvas.js:151-163 | a point is returned exactly for the six recognised draw types; any other type falls through the switch with no result |
| Vectors.ScreenFormatAliases | farancanvas.js:156-160 | the two names of each convention give the same point |
| Vectors.NormalIsBottomUp | farancanvas.js:160-161 | normal mode puts the box's top edge at `height - (y+h)*ppy` and its bottom edge at `height - y*ppy`, scales x and sets z to 0 |
| Vectors.NormalShiftUp | farancanvas.js:160-161 | moving a box up by d world units moves its normal-mode origin up the screen by d*ppy pixels |
| Vectors.CenteredFromNormal | farancanvas.js:156-161 | the centered origin is the normal one shifted by the pixel width and by half the pixel y, and keeps z |
| Vectors.CanvasIgnoresSize | farancanvas.js:158-159 | the canvas convention ignores size and height and repeats x in z |
| Vectors.NormalExample | farancanvas.js:151-163 | a half-unit box at (1,1) on a 500-pixel surface at 100 px/unit projects to (100,350,0) |
| ArrayHelpers.Reversed | farancanvas.js:76-78 | the result has the input's length, and every element of either array occurs in the other |
| ArrayHelpers.ReversedLast | farancanvas.js:76-78 | the reversal starts with the last element and continues with the reversal of the rest |
| ArrayHelpers.ReversedPermutation | farancanvas.js:76-78 | the reversal is a permutation: every element occurs as often as in the input |
| ArrayHelpers.ReversedInvolution | farancanvas.js:76-78 | reversing twice gives back the original array |
| ArrayHelpers.CopiesLength | farancanvas.js:84-86 | k copies of an array have k times its length |
| ArrayHelpers.CopiesAt | farancanvas.js:84-86 | element j of copy q is the original element j |
| ArrayHelpers.MirroredPalindrome | farancanvas.js:81-82 | for a non-positive count the result has 2n-1 elements, starts with the array, and is a palindrome |
| ArrayHelpers.Repeat | farancanvas.js:80-88 | the push loop yields times+1 copies for a positive count and the mirrored array otherwise |
| ArrayHelpers.RepeatedPositive | farancanvas.js:83-87 | for a positive count the result has n*(times+1) elements and every copy holds the original |
| ArrayHelpers.Remove | farancanvas.js:98-100 | the result is no longer than the input and does not contain the value; with the value absent, nothing is dropped |
| ArrayHelpers.RemoveContents | farancanvas.js:98-100 | `remove` keeps every element other than the value as often as before, and drops every copy of the value |
| ArrayHelpers.RemoveMembers | farancanvas.js:98-100 | an element is in the result exactly when it is in the input and differs from the value |
| ArrayHelpers.RemoveConcat | farancanvas.js:98-100 | `remove` distributes over concatenation, so the survivors keep their order |
| ArrayHelpers.RemoveAbsent | farancanvas.js:98-100 | removing a value that is absent returns an equal array |
| ArrayHelpers.Indices | farancanvas.js:115-117 | the keys of an n-element array are 0..n-1 in order |
| ArrayHelpers.Range | farancanvas.js:115-117 | a list is returned exactly for lengths 0..2^32-1, and it is 0..n-1; any other length throws |
| ArrayHelpers.Min0 | farancanvas.js:102-104 | the result is non-negative, at least the input, and is either the input or 0 |
| ArrayHelpers.Min0Laws | farancanvas.js:102-104 | clamping is idempotent and monotone |
| World.Drawable.RawImage | farancanvas.js:240-286 | fields start at their defaults; the collision box equals the size; the rigidbody interval is live and recorded; the entity joins `rawImageList` |
| World.Drawable.Sprite | farancanvas.js:337-359 | adds to the raw-image state: the image source, animation speed 12 and frame 0, three live intervals, and membership of `spriteList` |
| World.Drawable.Square | farancanvas.js:363-372 | adds to the raw-image state: colour `#e6e6e6` and membership of `squareList` |
| World.Drawable.Text | farancanvas.js:392-402 | a zero-size raw image with the given text, font and colour, in `textList` |
| World.Scene.constructor | farancanvas.js:175-198 | a scene with empty lists and listener map is appended to the registry, and its index is its registry position |
| World.LastNamed | farancanvas.js:466-469 | the name loop's result is either its starting scene or a registered scene with the name |
| World.LastNamedSpec | farancanvas.js:466-469 | the name loop keeps the current scene exactly when no scene has the name, and otherwise picks the last scene that has it |
| World.LastNamedFound | farancanvas.js:466-469 | when some scene has the name, the loop settles on a scene with it after which no registered scene has it |
| World.LastNamedUnique | farancanvas.js:200-202 | when a scene's name is unique, loading by that name selects that scene |
| World.Resolve | farancanvas.js:466-474 | a string gives the start scene or a scene with that name; a number gives a registered scene exactly when it is in range, and null otherwise; an object gives itself; any other value keeps the current scene |
| World.Cleared | farancanvas.js:439-447 | a handle is still running after the teardown exactly when it was running before and is not among the cleared ones |
| World.IntervalsCover | farancanvas.js:443-447 | every interval of every listed raw image is among the handles the teardown clears |
| World.Engine.constructor | farancanvas.js:657-658 | start-up registers a single, fresh scene "default" with every list and the listener map empty, and makes it current |
| World.Engine.LoadScene | farancanvas.js:437-477 | teardown clears the scene's and its raw images' intervals, detaches its listeners, and empties `audio`, `interval` and the sprite, square and text lists, keeping the rest; resolution by name, number, object or other type; `onLoad` runs iff the result is non-null |
| World.Engine.Unload | farancanvas.js:438-464 | the teardown: which handles are cleared and in what order, which listeners are detached, and which lists are emptied |
| World.Engine.FindNamed | farancanvas.js:466-469 | the name loop settles on the last registered scene with the name, else the current scene |
| World.Engine.AddEventListener | farancanvas.js:485-492 | appends the handler to the type's list (creating it if needed) and attaches it to the document |
| World.Engine.RemoveEventListener | farancanvas.js:494-499 | detaches the pair from the document exactly when the scene's map has the type; the map is unchanged |
| World.Engine.Destroy | farancanvas.js:519-521 | the active scene's sprite list loses every occurrence of the entity and nothing else |
| World.Engine.LoadSceneOf | farancanvas.js:200-202 | `scene.loadScene()` is `LoadScene` by that scene's name: the same teardown, then the last registered scene with the name, whose `onLoad` runs |
| World.Engine.WindowOnLoad | farancanvas.js:670-672 | with two or more scenes, page load tears down the current scene and activates registry slot 1, running its `onLoad`; otherwise neither the engine nor the current scene changes |
| World.SwitchAwayAndBack | farancanvas.js:437-477 | after switching away and back, the first scene's sprite, square and text lists are empty and its raw-image list is intact; neither its own intervals nor those of its raw images are still running |
| Controllers.Step | farancanvas.js:406-411 | one tick moves every axis of the position by the old velocity over fps and every axis of the velocity by the acceleration over fps, and keeps the acceleration |
| Controllers.RigidbodyController | farancanvas.js:406-411 | the axis loop performs exactly one tick: position += velocity/fps, then velocity += acceleration/fps |
| Controllers.StepsClosedForm | farancanvas.js:406-411 | after n ticks the velocity is v + n*a/fps and the position is p + n*v/fps + T(n)*a/fps², with the acceleration unchanged |
| Controllers.TriangleFormula | farancanvas.js:406-411 | the position coefficient T(n) of the acceleration is n(n-1)/2 |
| Controllers.ConstantVelocity | farancanvas.js:406-411 | without acceleration the velocity stays put and the position advances by velocity/fps per tick |
| Controllers.SixtyPerSecond | farancanvas.js:406-411 | at 60 ticks/s, 60 units/s along x advance one unit per tick |
| Controllers.Push | farancanvas.js:299-304 | every velocity axis becomes dis/time |
| Controllers.PushCoversDistance | farancanvas.js:299-304 | integrating a push for the time*fps ticks of its duration moves the entity by exactly `dis` |
| Controllers.AnimationController | farancanvas.js:413-419 | the key loop updates counter and image as `Animate` says: each animating key shows its track at the counter, then bumps it |
| Controllers.AnimateCounter | farancanvas.js:413-419 | one tick advances the shared counter by the number of animating keys; with none, the image is kept |
| Controllers.AnimateSingle | farancanvas.js:413-419 | with one animating key the tick shows that track's frame `counter mod length` and bumps the counter |
| Controllers.NoneAnimate | farancanvas.js:415 | if no key passes the guard, the animating count is zero |
| Controllers.OverlapSymmetric | farancanvas.js:423-426 | the overlap test is symmetric in the two boxes |
| Controllers.SelfHit | farancanvas.js:421-426 | a sprite with a handler for its own tag and a non-negative box hits itself |
| Controllers.SpriteCollisionDetector | farancanvas.js:421-434 | over the active scene's sprite list, dispatches exactly the sprites whose tag has a handler and whose box overlaps, each once, in list order |

## Left out

- Rendering (`canvas.draw`), `canvas.check`, `canvas.setPosition` and `canvas.setRelativePixel`, camera logic: drawing and layout against the DOM, outside the core.
- `Audio` and `AudioMaster`: media playback. Only the `audio` list assignment in the teardown is modelled, and pausing is an effect on opaque handles.
- `Import` and `SingleImport`, `LinearGradient`, `String.prototype.format`, `Array.prototype.toVector3`, `Timer`, `Update`, `Start`, `ClearInterval`, `KeyboardOnDown` and `KeyboardOnUp`: loading scripts, canvas styling and thin wrappers, none of them in the core.
- `setOnClick`, `addEventClick`, `setVisibility` and `setActive`: click hit-testing against the DOM, and trivial setters.
- `pushNoInterrupt`: it depends on `setTimeout` timing.
- Push: models only the immediate velocity change, not the `setTimeout` resets to zero after `time` seconds. It requires `time != 0`, because the source divides by it and would give infinities.
- The scheduling itself (`setInterval`, `setTimeout`, the 1000/fps periods): the controllers are modelled as single ticks, and interval handles are constructor parameters.
- Floating point: numbers are mathematical reals and integers. IEEE rounding, `NaN` and infinities are not modelled.
- JavaScript `in` on plain objects also sees inherited properties such as `toString`. Maps here hold only their own keys.
- Callbacks are opaque. Their side effects are not modelled: the collision handler, `onLoad`, and listeners that run during a scan or a scene switch. The collision scan's `try`/`catch` around the handler therefore has no counterpart.
- World.Drawable.RawImage: `collisionEnd` is the same object as `size` in the source. The model records only that the two are equal at construction; later in-place edits of one axis through the alias are not followed. `classes`, `collideWithClass`, `collideWith` and `rotationAtCenter` are not modelled.
- World.Drawable.RawImage, World.Drawable.Sprite, World.Drawable.Square, World.Drawable.Text: each requires an active scene, because the source throws when `currentScene` is undefined.
- World.Engine.AddEventListener, World.Engine.Destroy and Controllers.SpriteCollisionDetector: each requires an active scene, because the source throws then.
- Controllers.AnimationController: a Dafny object has no list of its property names, so the sprite's enumerable keys are a parameter in enumeration order. The image source is an `Option<string>`; `None` stands for the `undefined` an empty track yields.
- ArrayHelpers.Range: takes an integer. The range error a fractional length raises is not modelled.
- ArrayHelpers.Repeat: takes an integer count. A fractional count is not modelled: the source's loop then rounds the count up (`[1].repeat(1.5)` pushes twice and gives three copies).
- World.Engine.LoadScene: a number is modelled as an integer (`ByIndex`). A fractional number, which makes the source's registry lookup `undefined`, is not modelled.
- Scene: the `loop` constructor parameter is never used by the source, and `myInterval` is only filled by `Update`, which is not modelled.
