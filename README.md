# Quaternion demo: rotation list editor and animation sequencer

The demo lets a user build a list of rotation steps with sliders and buttons
and shows the composed rotation applied to a model. The render loop in
`main` also plays the list back, one segment at a time, by spherical
interpolation. This project models that state machine:

- the rotation list (`quaternion_list`), which starts as `[identity]`;
- the slider edits, which rebuild only the last entry;
- "Add Rotation", which appends an identity step;
- "Clear Rotations", which resets the list to `[identity]`;
- "Animate Rotations", which starts playback;
- the per-frame computation of the displayed rotation and the advance of
  `animating`, `animate_index` and `animate_timer`.

Files:

- `quaternion.dfy` (module `Quaternions`): the rotation type, as four reals,
  and its identity. The quaternion operations the demo calls are the function
  fields of the `Operations` datatype: product, slerp, the two constructors
  used by the sliders, and nalgebra's `normalize`. Their numerics are not
  modelled. One lemma, `Sequencer.SegmentStartShowsPrefix`, takes the law
  `slerp(a, b, 0) == a` as a hypothesis; no other proof assumes any law of
  these operations.
- `composition.dfy` (module `Composition`): `Compose`, the left fold of the
  product over a list starting from the identity. `ComposePrefix` is the
  `rotation *= q` loop proved against it.
- `sequencer.dfy` (module `Sequencer`): one frame as functions. `Advance` is
  the timer and index step, `Next` is the playback state after a frame, and
  `Render` is what a frame shows, including the out-of-bounds panic.
  `Frames` iterates `Next` over an unchanged list. The lemmas cover how long
  playback lasts, what each frame interpolates between, and the panic after
  Clear.
- `demo.dfy` (module `Demo`): the class `RotationDemo` holding the render
  loop's mutable locals, with one method per handler and `Frame` for the
  per-frame update. Each method's contract ties the new state to the old one
  or to the `Sequencer` functions.

The f32 timer is an exact `real` stepped by exactly `1.0 / 60.0`. Under that
arithmetic the timer after `k` frames of playback is `(k % 60) / 60`, the
index is `k / 60`, and playback over a list of length `len` ends after
exactly `len * 60` frames.

Behaviour of the code that the model keeps:

- Playback stops once `animate_index >= quaternion_list.len()`
  (src/main.rs:357), so a list of `len` steps plays `len` segments. Segment `i` runs from the first `i`
  entries composed to the first `i + 1` entries composed. Segment 0 starts
  at the identity.
- Clearing the list mid-playback does not stop it. Once past the first
  segment, the next frame indexes past the end of the one-entry list at
  src/main.rs:351, which panics. `Render` returns `IndexOutOfBounds` for
  this, and `ClearMidPlaybackPanics` shows when it happens. No method needs
  a precondition to exclude it. `InBounds()` is kept by every operation
  except Clear, which keeps it exactly when playback is idle or still in
  segment 0.
- The list is never empty, so playback never starts on an empty list.
- The idle rotation is the left fold `(((I * q1) * q2) * q3)`. It equals
  `q1 * (q2 * q3)` only under associativity and the left identity law
  `I * q1 == q1`, neither of which is modelled.

## Model

| member | source | states |
|---|---|---|
| `Composition.Compose` | src/main.rs:344-349 | defines the rotation a list denotes: the left fold of the product over it, starting from the identity, as the `rotation *= q` loops build it (also 362-364) |
| `Sequencer.Started` | src/main.rs:330-332 | defines the playback state "Animate Rotations" sets: animating, index 0, timer 0 |
| `Sequencer.Next` | src/main.rs:351-359 | defines the playback state after a frame: the step of `Advance` when animating in range, no change when idle or panicking. It keeps "animating implies index in range" and the timer in [0, 1) |
| `Sequencer.Render` | src/main.rs:344-364 | defines what a frame shows: idle, the whole list composed; animating, the slerp from the first index entries composed to that times entry index. It panics (`IndexOutOfBounds`) exactly when animating with the index past the end, as the indexing at 351 does |
| `Composition.ComposeSnoc` | src/main.rs:362-364 | appending a step composes it on the right of the rotation the list already denotes |
| `Composition.ComposePrefixStep` | src/main.rs:347-349 | the fold over the first i + 1 entries is the fold over the first i entries times entry i |
| `Composition.ComposePrefix` | src/main.rs:344-349 | the `rotation *= q` loop from the identity over `take(n)` (whole list when n is at least the length) returns the left fold of the product over that prefix |
| `Sequencer.Advance` | src/main.rs:353-359 | an animating frame keeps the timer in [0, 1). The index moves by at most one, and by one exactly when timer + 1/60 reaches 1. Index plus timer grows by exactly 1/60. Playback continues exactly while the new index is below the list length |
| `Sequencer.IdleIsStable` | src/main.rs:346-365 | an idle sequencer stays idle and unchanged over any number of frames |
| `Sequencer.PlaybackAt` | src/main.rs:330-359 | over an unchanged list, k frames after the start and before the end, the state is animating with index k / 60 (in range) and timer (k % 60) / 60 |
| `Sequencer.LastAnimatingFrame` | src/main.rs:353-358 | frame len * 60 - 1 after the start animates the last segment with timer 59/60 |
| `Sequencer.PlaybackEnds` | src/main.rs:354-359 | len * 60 frames after the start the index has reached the length, the timer has wrapped to 0 and playback has stopped |
| `Sequencer.PlaybackLength` | src/main.rs:351-359 | over an unchanged list, playback is on exactly for the first len * 60 frames. Every animating frame indexes inside the list, and afterwards the state stays at rest |
| `Sequencer.SegmentInterpolatesPrefixes` | src/main.rs:347-351 | an animating frame shows the slerp from the first index entries composed to the first index + 1 entries composed |
| `Sequencer.LastSegmentTarget` | src/main.rs:351 | the last segment's target is the whole list composed |
| `Sequencer.LastTargetIsRestingRotation` | src/main.rs:344-364 | the last animating frame interpolates towards the whole list composed, and the first frame after playback shows exactly that idle rotation |
| `Sequencer.SegmentStart` | src/main.rs:353-358 | segment s begins s * 60 frames after the start, with index s and the timer at 0 |
| `Sequencer.SegmentStartShowsPrefix` | src/main.rs:347-353 | if slerp at t = 0 returns its first argument, the frame s * 60 frames after the start shows the first s entries composed, so segments join without a jump |
| `Sequencer.ClearMidPlaybackPanics` | src/main.rs:322-351 | clearing the list after the first segment of a playback leaves it animating, and the next frame indexes out of bounds |
| `Demo.RotationDemo.constructor` | src/main.rs:127-136 | the list starts as `[identity]`, angles at 0, the axis at (1, 0, 0) and playback idle at (false, 0, 0) |
| `Demo.RotationDemo.ReplaceLast` | src/main.rs:223-224 | `last_mut().unwrap()` succeeds because the list is non-empty, and only the last entry changes |
| `Demo.RotationDemo.SetEulerAngle` | src/main.rs:215-250 | a yaw, pitch or roll slider stores its angle. Length and earlier entries stay unchanged, and the last entry becomes `from_euler_angles` of the three angles |
| `Demo.RotationDemo.SetAxisComponent` | src/main.rs:252-292 | an axis slider stores its component. Length and earlier entries stay unchanged, and the last entry becomes `from_axis_angle` of the normalised axis and the angle |
| `Demo.RotationDemo.SetAxisAngle` | src/main.rs:294-306 | the angle slider stores the angle. Length and earlier entries stay unchanged, and the last entry becomes `from_axis_angle` of the normalised axis and the new angle |
| `Demo.RotationDemo.AddRotation` | src/main.rs:314 | the list becomes the old list followed by one identity step |
| `Demo.RotationDemo.ClearRotations` | src/main.rs:322 | the list becomes exactly `[identity]`. The index stays in bounds exactly when playback is idle or at index 0 |
| `Demo.RotationDemo.AnimateRotations` | src/main.rs:330-332 | playback becomes (true, 0, 0) whatever it was, and the next frame is in bounds |
| `Demo.RotationDemo.Frame` | src/main.rs:344-365 | the frame shows `Render` of the list and the old playback state, and the playback state becomes `Next` of it. An in-bounds state renders without panic and stays in bounds |

## Left out

- Window creation, the event loop, the conversion of window events to UI input, widget layout and the widget ids. These are user-interface glue over libraries outside this model.
- The "Euler Angles" / "Axis Angle" mode buttons (src/main.rs:191-212). They only choose which sliders are drawn. Each slider method models the handler of one slider shown in its mode.
- The degree/radian conversions of the slider values. The slider methods take radians.
- The numerics of the quaternion module (`from_euler_angles`, `from_axis_angle`, `slerp`, `into_matrix`, the product) and of `Vector3::normalize`, including its division by zero for a zero axis. These are parameters of the model. src/quaternion.rs is not part of this model.
- The f32 rounding of `animate_timer += 1.0 / 60.0`. The timer is an exact real, so the wrap after exactly 60 frames holds here. In f32 the accumulated sum may wrap one frame early or late.
- Shader loading, the axes model's vertex data and GPU buffers, `render_model`, `Camera` and `Transform::to_matrix`. These are rendering only.
- The 16 ms sleep and the frame pacing.
- A panicking frame is modelled by its `IndexOutOfBounds` outcome; the process ending after it is not.
