/**
 * The scroll part of the per-frame tick: auto-move, clamping of the scroll
 * target to the navigable range, and the damped approach of the timeline's
 * depth towards the target.
 */
module Motion {
  import opened Common

  /** The scroll accumulator, the timeline's actual depth and the scrolling flag. */
  datatype Scroll = Scroll(scrollPos: real, timelineZ: real, scrolling: bool)

  /** Each frame covers one twelfth of the remaining gap. */
  const Damping: real := 12.0

  /** A step of at most this size ends the smooth scroll. */
  const SettleThreshold: real := 0.1

  /** Whether the smooth-scroll branch of a tick runs: scrolling is allowed and
      either the flag was set or auto-move sets it. */
  predicate SmoothActive(s: Scroll, allowScrolling: bool, autoMoveSpeed: real)
  {
    allowScrolling && (s.scrolling || autoMoveSpeed > 0.0)
  }

  /** The clamp of the scroll target: first up to 0, then down to the negated
      end-section depth when there is an end section. */
  function Clamp(p: real, stop: Option<real>): (r: real)
    ensures stop.Some? && stop.value <= 0.0 ==> 0.0 <= r <= -stop.value
    ensures stop.None? ==> r >= 0.0
    ensures (stop.None? || p <= -stop.value) && p >= 0.0 ==> r == p
    // saturation: below the range the target becomes 0, above it the end depth
    ensures p <= 0.0 && (stop.None? || stop.value <= 0.0) ==> r == 0.0
    ensures stop.Some? && stop.value <= 0.0 && p >= -stop.value ==> r == -stop.value
  {
    var low := if p <= 0.0 then 0.0 else p;
    if stop.Some? && low >= -stop.value then -stop.value else low
  }

  /** Clamping twice is clamping once. */
  lemma ClampIdempotent(p: real, stop: Option<real>)
    ensures Clamp(Clamp(p, stop), stop) == Clamp(p, stop)
  {
  }

  /** The auto-move part of a tick: a positive speed advances the scroll
      target and keeps the smooth scroll running. */
  function AutoMove(s: Scroll, autoMoveSpeed: real): (r: Scroll)
    ensures r.timelineZ == s.timelineZ
    ensures autoMoveSpeed > 0.0 ==> r.scrolling && r.scrollPos == s.scrollPos + autoMoveSpeed
    ensures autoMoveSpeed <= 0.0 ==> r == s
  {
    if autoMoveSpeed > 0.0 then Scroll(s.scrollPos + autoMoveSpeed, s.timelineZ, true) else s
  }

  /** The smooth-scroll branch of a tick: the target is clamped and the
      timeline covers a twelfth of its gap to it, so eleven twelfths remain. */
  function SmoothStep(s: Scroll, stop: Option<real>): (r: Scroll)
    ensures r.scrollPos == Clamp(s.scrollPos, stop)
    ensures r.scrollPos - r.timelineZ == (r.scrollPos - s.timelineZ) * 11.0 / 12.0
    // the smooth scroll goes on while the step exceeds the settle threshold
    ensures r.scrolling <==> Abs(r.timelineZ - s.timelineZ) > SettleThreshold
  {
    var target := Clamp(s.scrollPos, stop);
    var delta := (target - s.timelineZ) / Damping;
    Scroll(target, s.timelineZ + delta, Abs(delta) > SettleThreshold)
  }

  /** One tick of the motion controller. */
  function ScrollTick(s: Scroll, allowScrolling: bool, autoMoveSpeed: real, stop: Option<real>): (r: Scroll)
    // auto-move only ever adds a positive speed; without the smooth branch the depth stays put
    ensures !SmoothActive(s, allowScrolling, autoMoveSpeed) ==>
      r.timelineZ == s.timelineZ && r.scrollPos == s.scrollPos + (if autoMoveSpeed > 0.0 then autoMoveSpeed else 0.0)
    ensures !SmoothActive(s, allowScrolling, autoMoveSpeed) ==> r.scrolling == (s.scrolling || autoMoveSpeed > 0.0)
    // the clamp of the moved target
    ensures SmoothActive(s, allowScrolling, autoMoveSpeed) ==>
      r.scrollPos == Clamp(s.scrollPos + (if autoMoveSpeed > 0.0 then autoMoveSpeed else 0.0), stop)
    ensures SmoothActive(s, allowScrolling, autoMoveSpeed) && stop.Some? && stop.value <= 0.0 ==>
      0.0 <= r.scrollPos <= -stop.value
    // the damped step: exactly a twelfth of the gap
    ensures SmoothActive(s, allowScrolling, autoMoveSpeed) ==>
      r.timelineZ - s.timelineZ == (r.scrollPos - s.timelineZ) / 12.0
    // no overshoot
    ensures SmoothActive(s, allowScrolling, autoMoveSpeed) ==>
      if s.timelineZ <= r.scrollPos then s.timelineZ <= r.timelineZ <= r.scrollPos
      else r.scrollPos <= r.timelineZ <= s.timelineZ
    // settling
    ensures SmoothActive(s, allowScrolling, autoMoveSpeed) ==>
      (r.scrolling <==> Abs(r.timelineZ - s.timelineZ) > SettleThreshold)
  {
    var moved := AutoMove(s, autoMoveSpeed);
    if allowScrolling && moved.scrolling then SmoothStep(moved, stop) else moved
  }

  /** n frames with scrolling allowed and no input; once the flag is cleared
      nothing moves any more. */
  function Frames(s: Scroll, stop: Option<real>, n: nat): Scroll
    decreases n
  {
    if n == 0 || !s.scrolling then s else Frames(SmoothStep(s, stop), stop, n - 1)
  }

  /** Frames are exactly repeated input-free ticks. */
  lemma FramesAreTicks(s: Scroll, stop: Option<real>, n: nat)
    requires n > 0
    ensures Frames(s, stop, n) == Frames(ScrollTick(s, true, 0.0, stop), stop, n - 1)
  {
  }

  /** A gap after k frames that each keep eleven twelfths of it: it keeps its
      sign and never grows. */
  function Shrink(g: real, k: nat): (r: real)
    ensures g >= 0.0 ==> 0.0 <= r <= g
    ensures g <= 0.0 ==> g <= r <= 0.0
    ensures k > 0 && g != 0.0 ==> Abs(r) < Abs(g)
  {
    if k == 0 then g else Shrink(g, k - 1) * 11.0 / 12.0
  }

  /** Shrinking a gap that was already shrunk once is shrinking it one more time. */
  lemma {:induction false} ShrinkShift(g: real, k: nat)
    ensures Shrink(g * 11.0 / 12.0, k) == Shrink(g, k + 1)
  {
    if k > 0 {
      ShrinkShift(g, k - 1);
    }
  }

  /** How many of n input-free frames move the timeline. */
  function Moving(s: Scroll, stop: Option<real>, n: nat): nat
    decreases n
  {
    if n == 0 || !s.scrolling then 0 else 1 + Moving(SmoothStep(s, stop), stop, n - 1)
  }

  /** Left alone, the timeline converges on the clamped target: after any
      positive number of frames the target is the clamped one, and the
      remaining gap is the initial gap shrunk by eleven twelfths for each of
      the frames that moved (at least one, at most n), so it never changes sign
      and never grows. */
  lemma {:induction false} FramesConverge(s: Scroll, stop: Option<real>, n: nat)
    requires s.scrolling && n > 0
    ensures var r := Frames(s, stop, n);
      var target := Clamp(s.scrollPos, stop);
      && r.scrollPos == target
      && 1 <= Moving(s, stop, n) <= n
      && r.scrollPos - r.timelineZ == Shrink(target - s.timelineZ, Moving(s, stop, n))
    decreases n
  {
    var s1 := SmoothStep(s, stop);
    var target := Clamp(s.scrollPos, stop);
    var g0 := target - s.timelineZ;
    if s1.scrolling && n > 1 {
      var m := Moving(s1, stop, n - 1);
      var r := Frames(s1, stop, n - 1);
      FramesConverge(s1, stop, n - 1);
      ClampIdempotent(s.scrollPos, stop);
      ShrinkShift(g0, m);
      assert r.scrollPos - r.timelineZ == Shrink(g0 * 11.0 / 12.0, m);
    } else {
      assert Frames(s1, stop, n - 1) == s1;
    }
  }
}
