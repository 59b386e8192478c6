/** The state that the render loop of `main` keeps between frames: the list
    of rotations the user builds with the sliders and buttons, the slider
    values, and the playback variables, together with the button and slider
    handlers and the per-frame update. */
module Demo {
  import opened Quaternions
  import opened Composition
  import opened Sequencer

  class RotationDemo {
    /** The quaternion operations the demo calls. */
    const ops: Operations

    /** `quaternion_list`: the rotation steps; the last one is being edited. */
    var rotations: seq<Quaternion>
    /** `euler_angles`: yaw, pitch and roll in radians. */
    const eulerAngles: array<real>
    /** `axis`: the rotation axis as set by the sliders, not normalised. */
    const axis: array<real>
    /** `axis_angle`: the angle about the axis in radians. */
    var axisAngle: real

    /** `animating`, `animate_index`, `animate_timer`. */
    var animating: bool
    var animateIndex: nat
    var animateTimer: real

    /** The list always has an entry to edit, the two slider buffers hold
        three values each, and the timer is inside its segment. */
    ghost predicate Valid()
      reads this
    {
      && |rotations| >= 1
      && eulerAngles.Length == 3 && axis.Length == 3 && eulerAngles != axis
      && 0.0 <= animateTimer < 1.0
    }

    /** The playback variables as one value, for the specification of a frame. */
    function PlaybackState(): Playback
      reads this
    {
      Playback(animating, animateIndex, animateTimer)
    }

    /** The next frame can index `quaternion_list[animate_index]` if it
        animates. */
    predicate InBounds()
      reads this
    {
      animating ==> animateIndex < |rotations|
    }

    /** The initial state of `main`: one identity rotation, zero angles, the
        x axis, playback idle. */
    constructor (ops: Operations)
      ensures Valid() && this.ops == ops
      ensures rotations == [Identity()]
      ensures fresh(eulerAngles) && eulerAngles[..] == [0.0, 0.0, 0.0]
      ensures fresh(axis) && axis[..] == [1.0, 0.0, 0.0] && axisAngle == 0.0
      ensures PlaybackState() == Playback(false, 0, 0.0) && InBounds()
    {
      this.ops := ops;
      rotations := [Identity()];
      eulerAngles := new real[3] [0.0, 0.0, 0.0];
      axis := new real[3] [1.0, 0.0, 0.0];
      axisAngle := 0.0;
      animating, animateIndex, animateTimer := false, 0, 0.0;
    }

    /** `*quaternion_list.last_mut().unwrap() = q`: the list is never empty,
        so the unwrap succeeds; only the last entry changes. */
    method ReplaceLast(q: Quaternion)
      requires Valid()
      modifies this`rotations
      ensures Valid()
      ensures |rotations| == |old(rotations)|
      ensures rotations[..|rotations| - 1] == old(rotations)[..|rotations| - 1]
      ensures rotations[|rotations| - 1] == q
      ensures old(InBounds()) ==> InBounds()
    {
      rotations := rotations[|rotations| - 1 := q];
    }

    /** The yaw (k = 0), pitch (k = 1) and roll (k = 2) sliders: store the
        angle and rebuild the last rotation from the three Euler angles. */
    method SetEulerAngle(k: nat, radians: real)
      requires Valid() && k < 3
      modifies this`rotations, eulerAngles
      ensures Valid()
      ensures eulerAngles[..] == old(eulerAngles[..])[k := radians]
      ensures |rotations| == |old(rotations)|
      ensures rotations[..|rotations| - 1] == old(rotations)[..|rotations| - 1]
      ensures rotations[|rotations| - 1] == ops.fromEulerAngles(eulerAngles[0], eulerAngles[1], eulerAngles[2])
      ensures old(InBounds()) ==> InBounds()
    {
      eulerAngles[k] := radians;
      ReplaceLast(ops.fromEulerAngles(eulerAngles[0], eulerAngles[1], eulerAngles[2]));
    }

    /** The axis x (k = 0), y (k = 1) and z (k = 2) sliders: store the
        component and rebuild the last rotation about the normalised axis. */
    method SetAxisComponent(k: nat, value: real)
      requires Valid() && k < 3
      modifies this`rotations, axis
      ensures Valid()
      ensures axis[..] == old(axis[..])[k := value]
      ensures |rotations| == |old(rotations)|
      ensures rotations[..|rotations| - 1] == old(rotations)[..|rotations| - 1]
      ensures var n := ops.normalize(axis[0], axis[1], axis[2]);
        rotations[|rotations| - 1] == ops.fromAxisAngle(n.0, n.1, n.2, axisAngle)
      ensures old(InBounds()) ==> InBounds()
    {
      axis[k] := value;
      var n := ops.normalize(axis[0], axis[1], axis[2]);
      ReplaceLast(ops.fromAxisAngle(n.0, n.1, n.2, axisAngle));
    }

    /** The angle slider: store the angle and rebuild the last rotation
        about the normalised axis. */
    method SetAxisAngle(radians: real)
      requires Valid()
      modifies this`rotations, this`axisAngle
      ensures Valid() && axisAngle == radians
      ensures |rotations| == |old(rotations)|
      ensures rotations[..|rotations| - 1] == old(rotations)[..|rotations| - 1]
      ensures var n := ops.normalize(axis[0], axis[1], axis[2]);
        rotations[|rotations| - 1] == ops.fromAxisAngle(n.0, n.1, n.2, radians)
      ensures old(InBounds()) ==> InBounds()
    {
      axisAngle := radians;
      var n := ops.normalize(axis[0], axis[1], axis[2]);
      ReplaceLast(ops.fromAxisAngle(n.0, n.1, n.2, axisAngle));
    }

    /** "Add Rotation": a new identity step to edit, after the existing ones. */
    method AddRotation()
      requires Valid()
      modifies this`rotations
      ensures Valid()
      ensures rotations == old(rotations) + [Identity()]
      ensures old(InBounds()) ==> InBounds()
    {
      rotations := rotations + [Identity()];
    }

    /** "Clear Rotations": back to the single identity step. The playback
        variables are not touched, so a playback past its first segment is
        left pointing beyond the end of the list. */
    method ClearRotations()
      requires Valid()
      modifies this`rotations
      ensures Valid()
      ensures rotations == [Identity()]
      ensures InBounds() <==> !animating || animateIndex == 0
    {
      rotations := [Identity()];
    }

    /** "Animate Rotations": play the list from its first segment, whatever
        the previous playback state. */
    method AnimateRotations()
      requires Valid()
      modifies this`animating, this`animateIndex, this`animateTimer
      ensures Valid()
      ensures PlaybackState() == Started()
      ensures InBounds()
    {
      animating := true;
      animateIndex := 0;
      animateTimer := 0.0;
    }

    /** One rendered frame: the rotation given to the model, then the timer
        and index step of an animating frame. */
    method Frame() returns (outcome: FrameOutcome)
      requires Valid()
      modifies this`animating, this`animateIndex, this`animateTimer
      ensures Valid()
      ensures outcome == Render(ops, rotations, old(PlaybackState()))
      ensures PlaybackState() == Next(|rotations|, old(PlaybackState()))
      ensures old(InBounds()) ==> InBounds() && outcome.Rendered?
    {
      if animating {
        var base := ComposePrefix(ops.mul, rotations, animateIndex);
        if animateIndex >= |rotations| {
          return IndexOutOfBounds;
        }
        outcome := Rendered(ops.slerp(base, ops.mul(base, rotations[animateIndex]), animateTimer));
        animateTimer := animateTimer + FrameStep;
        if animateTimer >= 1.0 {
          animateIndex := animateIndex + 1;
          animateTimer := animateTimer - 1.0;
          if animateIndex >= |rotations| {
            animating := false;
          }
        }
      } else {
        var rotation := ComposePrefix(ops.mul, rotations, |rotations|);
        outcome := Rendered(rotation);
      }
    }
  }
}
