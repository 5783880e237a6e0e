/**
 * The per-frame video gate: a video inside the camera frustum plays, one
 * outside it is paused.
 */
module Videos {

  /** The new paused state of one video: a paused video in view is played, a
      playing video out of view is paused, and anything else is left alone. */
  function Gate(paused: bool, inView: bool): (p: bool)
    ensures p == !inView
    ensures p != paused ==> (inView <==> paused)
  {
    if inView && paused then false
    else if !inView && !paused then true
    else paused
  }

  /** One pass of the gate over the videos below `count`; the videos from
      `count` on keep their state. */
  function GatePass(paused: seq<bool>, inView: seq<bool>, count: int): (r: seq<bool>)
    requires |inView| == |paused|
    ensures |r| == |paused|
    ensures forall i :: 0 <= i < |r| ==> r[i] == if i < count then !inView[i] else paused[i]
  {
    seq(|paused|, i requires 0 <= i < |paused| => if i < count then Gate(paused[i], inView[i]) else paused[i])
  }

  /** A second pass with the same view changes nothing. */
  lemma GateIdempotent(paused: seq<bool>, inView: seq<bool>, count: int)
    requires |inView| == |paused|
    ensures GatePass(GatePass(paused, inView, count), inView, count) == GatePass(paused, inView, count)
  {
  }

  /** The gate pass only depends on the view for the gated videos: two
      states that differ only in which gated videos are paused end up equal. */
  lemma GateForgetsState(p1: seq<bool>, p2: seq<bool>, inView: seq<bool>, count: int)
    requires |inView| == |p1| == |p2|
    requires forall i :: count <= i < |p1| && 0 <= i ==> p1[i] == p2[i]
    ensures GatePass(p1, inView, count) == GatePass(p2, inView, count)
  {
    assert forall i :: 0 <= i < |p1| ==> GatePass(p1, inView, count)[i] == GatePass(p2, inView, count)[i];
  }

  /** With the count one below the number of videos, as the timeline sets
      it, the last video is never gated: it keeps its state whatever the view. */
  lemma LastVideoUngated(paused: seq<bool>, inView: seq<bool>)
    requires |inView| == |paused| > 0
    ensures GatePass(paused, inView, |paused| - 1)[|paused| - 1] == paused[|paused| - 1]
    ensures forall i :: 0 <= i < |paused| - 1 ==> GatePass(paused, inView, |paused| - 1)[i] == !inView[i]
  {
  }
}
