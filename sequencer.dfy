/** The animation sequencer of the render loop: the flags `animating`,
    `animate_index` and `animate_timer`, the rotation shown on a frame, and
    the per-frame advance of the timer and the segment index.

    The functions here are the specification of one frame; the class in
    module Demo runs them on its fields. The f32 timer is an exact real
    stepped by exactly 1/60. */
module Sequencer {
  import opened Quaternions
  import opened Composition

  /** The three playback variables of the render loop. */
  datatype Playback = Playback(animating: bool, index: nat, timer: real)

  /** What one frame produces: the rotation given to the model's transform,
      or the panic of `quaternion_list[animate_index]` when the index is
      past the end of the list. */
  datatype FrameOutcome = Rendered(rotation: Quaternion) | IndexOutOfBounds

  /** Frames per segment: the timer wraps once every this many frames. */
  const FramesPerSegment: nat := 60

  /** The timer increment of one frame, `1.0 / 60.0`. */
  const FrameStep: real := 1.0 / FramesPerSegment as real

  /** The state "Animate Rotations" sets. */
  function Started(): (r: Playback) {
    Playback(true, 0, 0.0)
  }

  /** The timer and index step of an animating frame. It is reached only
      after `quaternion_list[animate_index]` succeeded, so the index is in
      range. */
  function Advance(p: Playback, len: nat): (r: Playback)
    requires p.animating && p.index < len
    // a timer in [0, 1) stays in [0, 1)
    ensures 0.0 <= p.timer < 1.0 ==> 0.0 <= r.timer < 1.0
    // the index moves by at most one, and by one exactly when the timer reaches 1
    ensures r.index == p.index || r.index == p.index + 1
    ensures r.index == p.index + 1 <==> p.timer + FrameStep >= 1.0
    // index plus timer always grows by exactly one frame step
    ensures r.index as real + r.timer == p.index as real + p.timer + FrameStep
    // playback goes on exactly while the index is in range
    ensures r.animating <==> r.index < len
  {
    var t := p.timer + FrameStep;
    if t >= 1.0 then Playback(p.index + 1 < len, p.index + 1, t - 1.0)
    else Playback(p.animating, p.index, t)
  }

  /** The playback state after one rendered frame over a list of `len`
      rotations. An idle frame leaves it alone; a frame that panics never
      gets to the step, so it is left alone there too. */
  function Next(len: nat, p: Playback): (r: Playback)
    // an idle frame and a panicking frame change nothing
    ensures !(p.animating && p.index < len) ==> r == p
    // a frame that can index the list leaves a state that can index it too
    ensures (p.animating ==> p.index < len) ==> (r.animating ==> r.index < len)
    // the timer stays inside its segment
    ensures 0.0 <= p.timer < 1.0 ==> 0.0 <= r.timer < 1.0
  {
    if p.animating && p.index < len then Advance(p, len) else p
  }

  /** The rotation a frame shows. Idle: the whole list composed. Animating:
      the first `index` entries composed (`base`), interpolated towards
      `base * list[index]` by the timer. */
  function Render(ops: Operations, list: seq<Quaternion>, p: Playback): (r: FrameOutcome)
    // the frame panics exactly when it animates with the index past the end
    ensures r == IndexOutOfBounds <==> p.animating && p.index >= |list|
  {
    if !p.animating then
      Rendered(Compose(ops.mul, list))
    else
      var base := Compose(ops.mul, if p.index < |list| then list[..p.index] else list);
      if p.index < |list| then Rendered(ops.slerp(base, ops.mul(base, list[p.index]), p.timer))
      else IndexOutOfBounds
  }

  /** The playback state after `n` frames over an unchanged list of `len`
      rotations. */
  function Frames(p: Playback, len: nat, n: nat): (r: Playback)
    decreases n
  {
    if n == 0 then p else Frames(Next(len, p), len, n - 1)
  }

  /** `n + 1` frames are `n` frames followed by one more. */
  lemma {:induction false} FramesLast(p: Playback, len: nat, n: nat)
    ensures Frames(p, len, n + 1) == Next(len, Frames(p, len, n))
    decreases n
  {
    if n > 0 {
      FramesLast(Next(len, p), len, n - 1);
    }
  }

  /** `a + b` frames are `a` frames followed by `b` frames. */
  lemma {:induction false} FramesSplit(p: Playback, len: nat, a: nat, b: nat)
    ensures Frames(p, len, a + b) == Frames(Frames(p, len, a), len, b)
    decreases a
  {
    if a > 0 {
      FramesSplit(Next(len, p), len, a - 1, b);
    }
  }

  /** Once idle, the sequencer stays idle and unchanged. */
  lemma {:induction false} IdleIsStable(p: Playback, len: nat, n: nat)
    requires !p.animating
    ensures Frames(p, len, n) == p
    decreases n
  {
    if n > 0 {
      IdleIsStable(Next(len, p), len, n - 1);
    }
  }

  /** Over an unchanged non-empty list, `k` frames after the start (for every
      k before the end) the sequencer is animating segment k / 60 with timer
      (k % 60) / 60; in particular the index is in range. */
  lemma {:induction false} PlaybackAt(len: nat, k: nat)
    requires 1 <= len && k < len * FramesPerSegment
    ensures Frames(Started(), len, k) == Playback(true, k / FramesPerSegment, (k % FramesPerSegment) as real / FramesPerSegment as real)
    ensures k / FramesPerSegment < len
    decreases k
  {
    if k > 0 {
      var j := k - 1;
      PlaybackAt(len, j);
      FramesLast(Started(), len, j);
      var p := Frames(Started(), len, j);
      var m := FramesPerSegment;
      assert j == m * (j / m) + j % m;
      assert k == m * (k / m) + k % m;
      if j % m == m - 1 {
        assert k / m == j / m + 1 && k % m == 0;
      } else {
        assert k / m == j / m && k % m == j % m + 1;
      }
    }
  }

  /** The last animating frame, `len * 60 - 1` frames after the start,
      shows the last segment with the timer one step short of wrapping. */
  /** The timer on the last frame of a segment: one step short of 1. */
  const LastTimer: real := (FramesPerSegment - 1) as real / FramesPerSegment as real

  lemma LastAnimatingFrame(len: nat)
    requires 1 <= len
    ensures Frames(Started(), len, len * FramesPerSegment - 1) == Playback(true, len - 1, LastTimer)
  {
    var j := len * FramesPerSegment - 1;
    PlaybackAt(len, j);
    assert j / FramesPerSegment == len - 1 && j % FramesPerSegment == FramesPerSegment - 1;
  }

  /** The frame `len * 60` frames after the start is the first idle one: the
      index has reached the length and the timer has wrapped to 0. */
  lemma PlaybackEnds(len: nat)
    requires 1 <= len
    ensures Frames(Started(), len, len * FramesPerSegment) == Playback(false, len, 0.0)
  {
    var j := len * FramesPerSegment - 1;
    LastAnimatingFrame(len);
    FramesLast(Started(), len, j);
  }

  /** Over an unchanged non-empty list, playback lasts exactly `len * 60`
      frames, every animating frame indexes inside the list, and the state
      after the end is the resting state forever. */
  lemma PlaybackLength(len: nat, k: nat)
    requires 1 <= len
    ensures Frames(Started(), len, k).animating <==> k < len * FramesPerSegment
    ensures Frames(Started(), len, k).animating ==> Frames(Started(), len, k).index < len
    ensures k >= len * FramesPerSegment ==> Frames(Started(), len, k) == Playback(false, len, 0.0)
  {
    var n := len * FramesPerSegment;
    if k < n {
      PlaybackAt(len, k);
    } else {
      PlaybackEnds(len);
      FramesSplit(Started(), len, n, k - n);
      IdleIsStable(Frames(Started(), len, n), len, k - n);
    }
  }

  /** An animating frame interpolates from the composition of the first
      `index` entries to the composition of the first `index + 1` entries. */
  lemma SegmentInterpolatesPrefixes(ops: Operations, list: seq<Quaternion>, p: Playback)
    requires p.animating && p.index < |list|
    ensures Render(ops, list, p)
         == Rendered(ops.slerp(Compose(ops.mul, list[..p.index]), Compose(ops.mul, list[..p.index + 1]), p.timer))
  {
    ComposePrefixStep(ops.mul, list, p.index);
  }

  /** The last segment interpolates towards the whole list composed. */
  lemma LastSegmentTarget(ops: Operations, list: seq<Quaternion>, t: real)
    requires 1 <= |list|
    ensures Render(ops, list, Playback(true, |list| - 1, t))
         == Rendered(ops.slerp(Compose(ops.mul, list[..|list| - 1]), Compose(ops.mul, list), t))
  {
    SegmentInterpolatesPrefixes(ops, list, Playback(true, |list| - 1, t));
    assert list[..|list|] == list;
  }

  /** The target of the last segment is the rotation shown at rest once
      playback stops: the last animating frame interpolates towards the
      whole list composed, and the frames after it show exactly that. */
  lemma LastTargetIsRestingRotation(ops: Operations, list: seq<Quaternion>)
    requires 1 <= |list|
    ensures Render(ops, list, Frames(Started(), |list|, |list| * FramesPerSegment - 1))
         == Rendered(ops.slerp(Compose(ops.mul, list[..|list| - 1]), Compose(ops.mul, list), LastTimer))
    ensures Render(ops, list, Frames(Started(), |list|, |list| * FramesPerSegment)) == Rendered(Compose(ops.mul, list))
  {
    LastAnimatingFrame(|list|);
    LastSegmentTarget(ops, list, LastTimer);
    PlaybackEnds(|list|);
  }

  /** Segment s starts s * 60 frames after the start, with the timer at 0. */
  lemma SegmentStart(len: nat, s: nat)
    requires s < len
    ensures Frames(Started(), len, s * FramesPerSegment) == Playback(true, s, 0.0)
  {
    var k := s * FramesPerSegment;
    PlaybackAt(len, k);
    assert k / FramesPerSegment == s && k % FramesPerSegment == 0;
  }

  /** If the interpolation starts at its first argument (a property of the
      quaternion module, not modelled here), then the frame at the start of
      segment s, s * 60 frames after the start, shows the first s entries
      composed: the segments join without a jump. */
  lemma SegmentStartShowsPrefix(ops: Operations, list: seq<Quaternion>, s: nat)
    requires forall a, b :: ops.slerp(a, b, 0.0) == a
    requires s < |list|
    ensures Render(ops, list, Frames(Started(), |list|, s * FramesPerSegment)) == Rendered(Compose(ops.mul, list[..s]))
  {
    SegmentStart(|list|, s);
  }

  /** Clearing the list once the first segment is done leaves the index past
      the end of the one-entry list, and the next frame panics at
      `quaternion_list[animate_index]`. */
  lemma ClearMidPlaybackPanics(ops: Operations, len: nat, k: nat)
    requires FramesPerSegment <= k < len * FramesPerSegment
    ensures Frames(Started(), len, k).animating
    ensures Render(ops, [Identity()], Frames(Started(), len, k)) == IndexOutOfBounds
  {
    PlaybackAt(len, k);
  }
}
