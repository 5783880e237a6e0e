/**
 * Normalisation of the three input families into one scroll delta: wheel
 * events (with their browser-specific fields), touch pans and long presses.
 */
module Input {
  import opened Common

  /** The wheel event fields the normaliser reads; a field the browser leaves
      at zero is falsy, exactly as in the event handler. */
  datatype WheelEvent = WheelEvent(detail: real, wheelDelta: real, deltaY: real)

  /** Which encoding of the wheel motion the normaliser reads. */
  predicate UsesDetail(e: WheelEvent) { e.detail != 0.0 && e.wheelDelta != 0.0 }
  predicate UsesDeltaY(e: WheelEvent) { !UsesDetail(e) && e.deltaY != 0.0 }

  /** Wheel notches towards the viewer, in the encoding the event carries:
      a negative `wheelDelta` (or `deltaY` of the opposite sign) is a
      forward scroll that should move deeper into the timeline. */
  predicate ScrollsForward(e: WheelEvent)
  {
    if UsesDetail(e) || !UsesDeltaY(e) then e.wheelDelta < 0.0 else e.deltaY > 0.0
  }

  /** The cross-browser wheel normaliser: the detail/wheelDelta pair, then
      deltaY, then wheelDelta alone. The result is signed like wheelDelta,
      and a notch reads as one unit in every encoding. */
  function NormalizeWheelDelta(e: WheelEvent): (r: real)
    ensures UsesDetail(e) ==> r * 40.0 * Abs(e.detail) == e.wheelDelta
    ensures UsesDeltaY(e) ==> r * 60.0 == -e.deltaY
    ensures !UsesDetail(e) && !UsesDeltaY(e) ==> r * 120.0 == e.wheelDelta
    ensures r < 0.0 <==> ScrollsForward(e)
  {
    if UsesDetail(e) then
      e.wheelDelta / e.detail / 40.0 * (if e.detail > 0.0 then 1.0 else -1.0)
    else if e.deltaY != 0.0 then
      -e.deltaY / 60.0
    else
      e.wheelDelta / 120.0
  }

  /** The change a wheel event makes to the scroll target: a forward scroll
      increases it. */
  function WheelScroll(e: WheelEvent): (d: real)
    ensures d > 0.0 <==> ScrollsForward(e)
    ensures d == 0.0 <==> e.wheelDelta == 0.0 && e.deltaY == 0.0
    // twenty per normalised unit, in each encoding
    ensures UsesDetail(e) ==> d * 2.0 * Abs(e.detail) == -e.wheelDelta
    ensures UsesDeltaY(e) ==> d * 3.0 == e.deltaY
    ensures !UsesDetail(e) && !UsesDeltaY(e) ==> d * 6.0 == -e.wheelDelta
  {
    -NormalizeWheelDelta(e) * 20.0
  }

  /** One wheel notch, forward (n = 1) or back (n = -1), moves the target by
      20 whatever encoding the browser uses: 120 units of wheelDelta with a
      detail of 3 of either sign (the normaliser drops the sign of detail),
      120 units of wheelDelta alone, or 60 units of deltaY. */
  lemma NotchesAgree(n: real, detail: real)
    requires n == 1.0 || n == -1.0
    requires detail == 3.0 || detail == -3.0
    ensures WheelScroll(WheelEvent(detail, -120.0 * n, 0.0)) == 20.0 * n
    ensures WheelScroll(WheelEvent(0.0, -120.0 * n, 0.0)) == 20.0 * n
    ensures WheelScroll(WheelEvent(0.0, 0.0, 60.0 * n)) == 20.0 * n
  {
    var e := WheelEvent(detail, -120.0 * n, 0.0);
    assert UsesDetail(e);
    assert NormalizeWheelDelta(e) * 40.0 * 3.0 == -120.0 * n;
  }

  /** The change a touch pan makes to the scroll target: upward velocity moves deeper. */
  function PanScroll(velocityY: real): (d: real)
    ensures d > 0.0 <==> velocityY < 0.0
    ensures Abs(d) == 6.0 * Abs(velocityY)
  {
    -velocityY * 6.0
  }

  /** Auto-move speed set by a long press. */
  const LongPressSpeed: real := 10.0

  /** Auto-move speed reached by the ramp scheduled on a press in browsing mode. */
  const HoldSpeed: real := 20.0
}
