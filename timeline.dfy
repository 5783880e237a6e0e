/**
 * The timeline controller: scroll state, the focus modes (browsing, an item
 * open, the contact section open), the theme's active month and the videos'
 * play state, with the handlers that change them.
 *
 * Every animation the controller starts is modelled by what it leaves behind
 * when it completes: starting it records a pending tween, and a separate
 * completion method applies its end state and its completion callback.
 */
module Timeline {
  import opened Common
  import opened Layout
  import opened Items
  import opened Input
  import opened Motion
  import opened Theme
  import opened Videos

  /** The camera height of the contact section. */
  const ContactY: real := 2000.0

  /** How far in front of the camera's origin an opened item comes to rest. */
  const OpenItemDistance: real := 300.0

  /** The pending item transition: opening an item towards a timeline depth, or closing it. */
  datatype ItemTween = ItemIdle | ItemOpening(item: ItemId, targetZ: real) | ItemClosing(item: ItemId)

  /** The pending camera transition to or from the contact section; a new one
      replaces the pending one, as the animation library overwrites a running
      tween of the same property. */
  datatype ContactTween = ContactIdle | ContactOpening | ContactClosing

  /** What a pointer press under the link raycast hit: nothing, or a link
      with or without a click handler. */
  datatype LinkHit = NoLink | Link(hasHandler: bool)

  /** Where a pointer press is routed. */
  datatype Dispatch =
    | LinkClicked
    | LinkIgnored
    | ContactCloseRequested
    | ItemCloseRequested
    | ItemOpenRequested(id: ItemId)
    | AutoMoveScheduled

  /** The press routing: with the contact section open, or an item open, a
      hit link is followed and any other press closes that mode; while
      browsing, a press on an item opens it and a press elsewhere schedules
      auto-move. */
  function Route(contactOpen: bool, itemOpen: Option<ItemId>, link: LinkHit, hit: Option<ItemId>): (d: Dispatch)
    ensures (contactOpen || itemOpen.Some?) ==>
      (d == LinkClicked <==> link == Link(true)) && (d == LinkIgnored <==> link == Link(false))
    ensures contactOpen && link == NoLink ==> d == ContactCloseRequested
    ensures !contactOpen && itemOpen.Some? && link == NoLink ==> d == ItemCloseRequested
    ensures !contactOpen && itemOpen.None? ==> d == (if hit.Some? then ItemOpenRequested(hit.value) else AutoMoveScheduled)
    // the contact section takes precedence, and items are only opened while browsing
    ensures d == ItemCloseRequested ==> !contactOpen && itemOpen.Some?
    ensures d.ItemOpenRequested? ==> !contactOpen && itemOpen.None? && hit == Some(d.id)
    ensures d == ContactCloseRequested ==> contactOpen
  {
    if contactOpen || itemOpen.Some? then
      match link
      case Link(hasHandler) => if hasHandler then LinkClicked else LinkIgnored
      case NoLink => if contactOpen then ContactCloseRequested else ItemCloseRequested
    else if hit.Some? then ItemOpenRequested(hit.value)
    else AutoMoveScheduled
  }

  /** The month whose section depth positions an opened item: the active
      month for an item of that month, otherwise the second-deepest passed
      month; there is none when fewer than two months are passed. */
  function OffsetMonth(item: Item, activeMonth: MonthId, remaining: seq<MonthId>): (m: Option<MonthId>)
    ensures item.month == activeMonth ==> m == Some(activeMonth)
    ensures item.month != activeMonth ==> (m.Some? <==> |remaining| >= 2)
    ensures m.Some? && item.month != activeMonth ==> m.value == remaining[|remaining| - 2]
  {
    if item.month != activeMonth then
      if |remaining| >= 2 then Some(remaining[|remaining| - 2]) else None
    else Some(activeMonth)
  }

  /** The timeline depth that opening `item` animates to, or None when a
      section lookup fails and the handler stops with an error before any
      animation starts. The target puts the item `OpenItemDistance` in front
      of the origin, reckoned from the section the offset was taken from. */
  function OpenTarget(item: Item, activeMonth: MonthId, remaining: seq<MonthId>, sectionZ: map<MonthId, real>): (t: Option<real>)
    ensures t.Some? <==>
      activeMonth in sectionZ && OffsetMonth(item, activeMonth, remaining).Some?
      && OffsetMonth(item, activeMonth, remaining).value in sectionZ
    ensures t.Some? ==> t.value + sectionZ[OffsetMonth(item, activeMonth, remaining).value] + item.z == OpenItemDistance
    // an item of the active month lands exactly at that distance in world depth
    ensures t.Some? && item.month == activeMonth ==> t.value + sectionZ[item.month] + item.z == OpenItemDistance
  {
    if activeMonth !in sectionZ then None
    else
      var posOffset := OffsetMonth(item, activeMonth, remaining);
      if posOffset.None? || posOffset.value !in sectionZ then None
      else Some(-(sectionZ[posOffset.value] - -item.z) + OpenItemDistance)
  }

  class TimelineState {
    // scroll
    var scrollPos: real
    var timelineZ: real
    var scrolling: bool
    var allowScrolling: bool
    var autoMoveSpeed: real
    var holdingMouseDown: bool
    /** The delayed ramp of auto-move speed scheduled by a press is pending. */
    var autoMoveRamp: bool

    // focus modes
    var itemOpen: Option<ItemId>
    var itemAnimating: bool
    var origTimelinePos: real
    var contactOpen: bool
    var contactVisible: bool
    var timelineVisible: bool
    var cameraY: real
    var itemTween: ItemTween
    var contactTween: ContactTween

    // theme
    var activeMonth: MonthId
    var remainingMonths: seq<MonthId>

    // scene, as laid out when the timeline was built
    var items: map<ItemId, Item>
    const sectionZ: map<MonthId, real>
    const monthPositions: seq<MonthPosition>
    const stopScrollPos: Option<real>
    /** The paused state of each video item, in creation order. */
    const videoPaused: array<bool>
    /** The number of videos the gate visits: one less than there are. */
    const videoCount: int

    /** The controller's invariant: an open item exists, an animating item is
        open, a pending item transition concerns the open item, a pending
        contact transition agrees with the contact flag, and the video count
        is as the layout set it. */
    predicate Valid()
      reads this
    {
      && (itemOpen.Some? ==> itemOpen.value in items)
      && (itemAnimating ==> itemOpen.Some?)
      && (!itemTween.ItemIdle? ==> itemAnimating && itemOpen == Some(itemTween.item))
      && (contactTween.ContactOpening? ==> contactOpen && contactVisible)
      && (contactTween.ContactClosing? ==> !contactOpen)
      && videoCount == videoPaused.Length - 1
    }

    /** The scroll state the motion controller works on. */
    function ScrollState(): Scroll
      reads this
    {
      Scroll(scrollPos, timelineZ, scrolling)
    }

    /** A freshly built timeline: browsing at the start, scrolling allowed,
        the intro month active and nothing passed yet. */
    constructor (layout: LayoutState, items0: map<ItemId, Item>, videos: seq<bool>)
      // the scene's items are the ones the layout created, each in its month
      requires items0.Keys == set k | 0 <= k < |layout.items| :: layout.items[k].id
      requires forall k :: 0 <= k < |layout.items| ==> items0[layout.items[k].id].month == layout.items[k].month
      ensures Valid()
      ensures ScrollState() == Scroll(0.0, 0.0, false)
      ensures allowScrolling && autoMoveSpeed == 0.0 && !holdingMouseDown && !autoMoveRamp
      ensures itemOpen.None? && !itemAnimating && itemTween == ItemIdle
      ensures !contactOpen && !contactVisible && timelineVisible && cameraY == 0.0 && contactTween == ContactIdle
      ensures activeMonth == Intro && remainingMonths == []
      ensures items == items0 && sectionZ == layout.sectionZ && monthPositions == layout.monthPositions
      ensures stopScrollPos == layout.stopScrollPos
      ensures fresh(videoPaused) && videoPaused[..] == videos && videoCount == |videos| - 1
    {
      scrollPos := 0.0;
      timelineZ := 0.0;
      scrolling := false;
      allowScrolling := true;
      autoMoveSpeed := 0.0;
      holdingMouseDown := false;
      autoMoveRamp := false;
      itemOpen := None;
      itemAnimating := false;
      origTimelinePos := 0.0;
      contactOpen := false;
      contactVisible := false;
      timelineVisible := true;
      cameraY := 0.0;
      itemTween := ItemIdle;
      contactTween := ContactIdle;
      activeMonth := Intro;
      remainingMonths := [];
      items := items0;
      sectionZ := layout.sectionZ;
      monthPositions := layout.monthPositions;
      stopScrollPos := layout.stopScrollPos;
      videoPaused := new bool[|videos|](i requires 0 <= i < |videos| => videos[i]);
      videoCount := |videos| - 1;
    }

    /** One animation frame: auto-move, then, when the smooth scroll runs,
        the clamped damped step, the video gate and the theme update. */
    method Tick(inView: seq<bool>) returns (fired: bool)
      requires Valid() && |inView| == videoPaused.Length
      modifies this`scrollPos, this`timelineZ, this`scrolling, this`remainingMonths, this`activeMonth, videoPaused
      ensures Valid()
      ensures ScrollState() == ScrollTick(old(ScrollState()), allowScrolling, autoMoveSpeed, stopScrollPos)
      ensures SmoothActive(old(ScrollState()), allowScrolling, autoMoveSpeed) ==>
        && remainingMonths == PassedMonths(monthPositions, timelineZ)
        && ThemeUpdate(activeMonth, fired) == ChangeTheme(old(activeMonth), remainingMonths, None)
        && videoPaused[..] == GatePass(old(videoPaused[..]), inView, videoCount)
      ensures !SmoothActive(old(ScrollState()), allowScrolling, autoMoveSpeed) ==>
        && !fired && activeMonth == old(activeMonth) && remainingMonths == old(remainingMonths)
        && videoPaused[..] == old(videoPaused[..])
    {
      var smooth, delta := ScrollStep();
      fired := false;
      if smooth {
        HandleVideos(inView);
        fired := ChangeColours(None);
        scrolling := Abs(delta) > SettleThreshold;
      }
    }

    /** The scroll part of a frame up to the settling test: auto-move, then,
        when the smooth scroll runs, the clamp of the target and the move of
        the timeline by `delta`, a twelfth of the way to it. */
    method ScrollStep() returns (smooth: bool, delta: real)
      modifies this`scrollPos, this`timelineZ, this`scrolling
      ensures smooth == SmoothActive(old(ScrollState()), allowScrolling, autoMoveSpeed)
      ensures smooth ==>
        Scroll(scrollPos, timelineZ, Abs(delta) > SettleThreshold)
          == ScrollTick(old(ScrollState()), allowScrolling, autoMoveSpeed, stopScrollPos)
      // the flag is set whenever the smooth scroll runs
      ensures smooth ==> scrolling
      ensures !smooth ==> ScrollState() == ScrollTick(old(ScrollState()), allowScrolling, autoMoveSpeed, stopScrollPos)
    {
      if autoMoveSpeed > 0.0 {
        scrolling := true;
        scrollPos := scrollPos + autoMoveSpeed;
      }
      ghost var moved := ScrollState();
      assert moved == AutoMove(old(ScrollState()), autoMoveSpeed);
      smooth := allowScrolling && scrolling;
      delta := 0.0;
      if smooth {
        delta := SmoothScroll();
      }
    }

    /** The smooth-scroll step of a frame: clamp the scroll target, then move
        the timeline a twelfth of the way to it; `delta` is the move. */
    method SmoothScroll() returns (delta: real)
      modifies this`scrollPos, this`timelineZ
      ensures Scroll(scrollPos, timelineZ, Abs(delta) > SettleThreshold) == SmoothStep(old(ScrollState()), stopScrollPos)
    {
      if scrollPos <= 0.0 {
        scrollPos := 0.0;
      }
      if stopScrollPos.Some? && scrollPos >= -stopScrollPos.value {
        scrollPos := -stopScrollPos.value;
      }
      delta := (scrollPos - timelineZ) / Damping;
      timelineZ := timelineZ + delta;
    }

    /** The video gate: each of the first `videoCount` videos plays when in
        view and is paused when not. */
    method HandleVideos(inView: seq<bool>)
      requires Valid() && |inView| == videoPaused.Length
      modifies videoPaused
      ensures videoPaused[..] == GatePass(old(videoPaused[..]), inView, videoCount)
    {
      var i := 0;
      while i < videoCount
        invariant 0 <= i <= videoPaused.Length && (i <= videoCount || i == 0)
        invariant forall j :: 0 <= j < videoPaused.Length ==>
          videoPaused[j] == if j < i then !inView[j] else old(videoPaused[j])
      {
        if inView[i] && videoPaused[i] {
          videoPaused[i] := false;
        } else if !inView[i] && !videoPaused[i] {
          videoPaused[i] := true;
        }
        i := i + 1;
      }
      assert forall j :: 0 <= j < videoPaused.Length ==> videoPaused[j] == GatePass(old(videoPaused[..]), inView, videoCount)[j];
    }

    /** Recompute the passed months at the current depth and move the active
        month as the theme rule says; `fired` tells whether a palette
        transition started. */
    method ChangeColours(override: Option<MonthId>) returns (fired: bool)
      modifies this`remainingMonths, this`activeMonth
      ensures remainingMonths == PassedMonths(monthPositions, timelineZ)
      ensures ThemeUpdate(activeMonth, fired) == ChangeTheme(old(activeMonth), remainingMonths, override)
    {
      remainingMonths := PassedMonths(monthPositions, timelineZ);
      var last := LastPassed(remainingMonths);
      fired := Truthy(override) || (Truthy(last) && activeMonth != last.value);
      if fired {
        if Truthy(override) {
          activeMonth := override.value;
        } else {
          activeMonth := last.value;
        }
      }
    }

    /** A wheel event moves the scroll target by the normalised delta and starts scrolling. */
    method Wheel(e: WheelEvent)
      modifies this`scrollPos, this`scrolling
      ensures scrollPos == old(scrollPos) + WheelScroll(e) && scrolling
    {
      var delta := NormalizeWheelDelta(e);
      scrollPos := scrollPos + -delta * 20.0;
      scrolling := true;
    }

    /** A touch pan moves the scroll target by six times the vertical velocity, reversed. */
    method PanMove(velocityY: real)
      modifies this`scrollPos, this`scrolling
      ensures scrollPos == old(scrollPos) + PanScroll(velocityY) && scrolling
    {
      scrollPos := scrollPos + -velocityY * 6.0;
      scrolling := true;
    }

    /** The end of a pan stops auto-move. */
    method PanEnd()
      modifies this`autoMoveSpeed
      ensures autoMoveSpeed == 0.0
    {
      autoMoveSpeed := 0.0;
    }

    /** A long press starts auto-move at the long-press speed. */
    method LongPress()
      modifies this`autoMoveSpeed
      ensures autoMoveSpeed == LongPressSpeed
    {
      autoMoveSpeed := LongPressSpeed;
    }

    /** The scheduled auto-move ramp completes at the hold speed. */
    method AutoMoveRampComplete()
      requires autoMoveRamp
      modifies this`autoMoveSpeed, this`autoMoveRamp
      ensures autoMoveSpeed == HoldSpeed && !autoMoveRamp
    {
      autoMoveSpeed := HoldSpeed;
      autoMoveRamp := false;
    }

    /** Releasing the pointer cancels the pending ramp and stops auto-move. */
    method MouseUp()
      modifies this`holdingMouseDown, this`autoMoveRamp, this`autoMoveSpeed
      ensures !holdingMouseDown && !autoMoveRamp && autoMoveSpeed == 0.0
    {
      holdingMouseDown := false;
      autoMoveRamp := false;
      autoMoveSpeed := 0.0;
    }

    /** A pointer press, with the link and item raycast results of the last
        pointer move, routed as `Route` says. */
    method MouseDown(link: LinkHit, hit: Option<ItemId>) returns (d: Dispatch)
      requires Valid()
      requires hit.Some? ==> hit.value in items
      modifies this`holdingMouseDown, this`autoMoveRamp
      modifies this`itemAnimating, this`itemOpen, this`origTimelinePos, this`allowScrolling, this`itemTween
      modifies this`contactOpen, this`timelineVisible, this`contactTween
      ensures Valid()
      ensures d == Route(old(contactOpen), old(itemOpen), link, hit)
      ensures holdingMouseDown
      ensures d == ContactCloseRequested ==> !contactOpen && timelineVisible && contactTween == ContactClosing
      ensures d == ItemCloseRequested ==>
        if old(itemAnimating) then itemTween == old(itemTween) && itemAnimating
        else itemAnimating && itemTween == ItemClosing(old(itemOpen).value)
      ensures d.ItemOpenRequested? ==>
        && itemOpen == Some(d.id) && itemAnimating && !allowScrolling && origTimelinePos == old(timelineZ)
        && itemTween == match OpenTarget(items[d.id], activeMonth, remainingMonths, sectionZ)
                        case Some(z) => ItemOpening(d.id, z)
                        case None => ItemIdle
      ensures autoMoveRamp == (old(autoMoveRamp) || d == AutoMoveScheduled)
      ensures !(d.ItemOpenRequested? || d == ItemCloseRequested) ==>
        itemOpen == old(itemOpen) && itemAnimating == old(itemAnimating) && itemTween == old(itemTween)
      ensures d != ContactCloseRequested ==> contactOpen == old(contactOpen) && contactTween == old(contactTween)
      ensures d != ContactCloseRequested ==> timelineVisible == old(timelineVisible)
      ensures d == ItemCloseRequested ==> itemOpen == old(itemOpen)
      ensures !d.ItemOpenRequested? ==> allowScrolling == old(allowScrolling) && origTimelinePos == old(origTimelinePos)
    {
      holdingMouseDown := true;
      d := Route(contactOpen, itemOpen, link, hit);
      if contactOpen {
        if link.NoLink? {
          CloseContact();
        }
      } else if itemOpen.Some? {
        if link.NoLink? {
          CloseItem();
        }
      } else {
        if hit.Some? {
          OpenItem(hit.value);
        } else {
          autoMoveRamp := true;
        }
      }
    }

    /** Opening an item: the mode flags are set at once; the transition is
        pending only when the target depth can be computed, otherwise the
        handler stops with an error and no animation ever clears the flags. */
    method OpenItem(id: ItemId)
      requires Valid() && id in items && itemOpen.None?
      modifies this`itemAnimating, this`itemOpen, this`origTimelinePos, this`allowScrolling, this`itemTween
      ensures Valid()
      ensures itemAnimating && itemOpen == Some(id) && origTimelinePos == old(timelineZ) && !allowScrolling
      ensures itemTween == match OpenTarget(items[id], activeMonth, remainingMonths, sectionZ)
                           case Some(z) => ItemOpening(id, z)
                           case None => ItemIdle
    {
      itemAnimating := true;
      itemOpen := Some(id);
      origTimelinePos := timelineZ;
      allowScrolling := false;
      var target := OpenTarget(items[id], activeMonth, remainingMonths, sectionZ);
      if target.Some? {
        itemTween := ItemOpening(id, target.value);
      }
    }

    /** The opening transition completes: the item is centred and revealed,
        the others are pushed to their corners, and the timeline rests at
        the target depth. */
    method OpenItemComplete()
      requires Valid() && itemTween.ItemOpening?
      modifies this`items, this`timelineZ, this`itemAnimating, this`itemTween
      ensures Valid()
      ensures items == OpenedItems(old(items), old(itemTween).item)
      ensures timelineZ == old(itemTween).targetZ
      ensures !itemAnimating && itemTween == ItemIdle
    {
      items := OpenedItems(items, itemTween.item);
      timelineZ := itemTween.targetZ;
      itemAnimating := false;
      itemTween := ItemIdle;
    }

    /** Closing the open item; ignored while an item transition runs or when
        no item is open. */
    method CloseItem()
      requires Valid()
      modifies this`itemAnimating, this`itemTween
      ensures Valid()
      ensures old(!itemAnimating && itemOpen.Some?) ==> itemAnimating && itemTween == ItemClosing(itemOpen.value)
      ensures !old(!itemAnimating && itemOpen.Some?) ==> itemAnimating == old(itemAnimating) && itemTween == old(itemTween)
    {
      if !itemAnimating && itemOpen.Some? {
        itemAnimating := true;
        itemTween := ItemClosing(itemOpen.value);
      }
    }

    /** The closing transition completes: the items return, the timeline
        goes back to the depth it had before the item was opened, and
        browsing resumes. */
    method CloseItemComplete()
      requires Valid() && itemTween.ItemClosing?
      modifies this`items, this`timelineZ, this`allowScrolling, this`itemOpen, this`itemAnimating, this`itemTween
      ensures Valid()
      ensures items == ClosedItems(old(items), old(itemTween).item)
      ensures timelineZ == old(origTimelinePos)
      ensures allowScrolling && itemOpen.None? && !itemAnimating && itemTween == ItemIdle
    {
      items := ClosedItems(items, itemTween.item);
      timelineZ := origTimelinePos;
      allowScrolling := true;
      itemOpen := None;
      itemAnimating := false;
      itemTween := ItemIdle;
    }

    /** The contact link toggles the contact section: closing it when open,
        otherwise showing it, stopping scrolling and moving the camera up. */
    method OpenContact()
      requires Valid()
      modifies this`contactVisible, this`contactOpen, this`allowScrolling, this`timelineVisible, this`contactTween
      ensures Valid()
      ensures old(contactOpen) ==>
        && !contactOpen && timelineVisible && contactTween == ContactClosing
        && contactVisible == old(contactVisible) && allowScrolling == old(allowScrolling)
      ensures !old(contactOpen) ==>
        && contactOpen && contactVisible && !allowScrolling && contactTween == ContactOpening
        && timelineVisible == old(timelineVisible)
    {
      if contactOpen {
        CloseContact();
        return;
      }
      contactVisible := true;
      contactOpen := true;
      allowScrolling := false;
      contactTween := ContactOpening;
    }

    /** Closing the contact section: the timeline shows again at once and the
        camera heads back down. */
    method CloseContact()
      requires Valid()
      modifies this`timelineVisible, this`contactOpen, this`contactTween
      ensures Valid()
      ensures timelineVisible && !contactOpen && contactTween == ContactClosing
    {
      timelineVisible := true;
      contactOpen := false;
      contactTween := ContactClosing;
    }

    /** The pending camera transition completes: arriving at the contact
        section hides the timeline; arriving back hides the contact section
        and allows scrolling again, whatever else is open. */
    method ContactTweenComplete()
      requires Valid() && !contactTween.ContactIdle?
      modifies this`cameraY, this`timelineVisible, this`contactVisible, this`allowScrolling, this`contactTween
      ensures Valid()
      ensures contactTween == ContactIdle
      ensures old(contactTween) == ContactOpening ==>
        && cameraY == ContactY && !timelineVisible
        && contactVisible == old(contactVisible) && allowScrolling == old(allowScrolling)
      ensures old(contactTween) == ContactClosing ==>
        && cameraY == 0.0 && !contactVisible && allowScrolling
        && timelineVisible == old(timelineVisible)
    {
      if contactTween == ContactOpening {
        cameraY := ContactY;
        timelineVisible := false;
      } else {
        cameraY := 0.0;
        contactVisible := false;
        allowScrolling := true;
      }
      contactTween := ContactIdle;
    }
  }

  /** Opening an item whose target can be computed and closing it again, each
      transition running to completion, brings the timeline back to its
      depth, resumes browsing, and leaves the items as closing what was
      opened leaves them. */
  method OpenCloseRoundTrip(t: TimelineState, id: ItemId)
    requires t.Valid() && id in t.items && t.itemOpen.None?
    requires OpenTarget(t.items[id], t.activeMonth, t.remainingMonths, t.sectionZ).Some?
    modifies t
    ensures t.Valid()
    ensures t.timelineZ == old(t.timelineZ)
    ensures t.allowScrolling && t.itemOpen.None? && !t.itemAnimating && t.itemTween == ItemIdle
    ensures t.items == ClosedItems(OpenedItems(old(t.items), id), id)
    ensures t.items[id].x == old(t.items[id].origX) && t.items[id].y == old(t.items[id].origY)
    ensures t.items[id].progress == 0.0
  {
    t.OpenItem(id);
    t.OpenItemComplete();
    t.CloseItem();
    t.CloseItemComplete();
    OpenCloseItems(old(t.items), id);
  }

  /** When the target of an opened item cannot be computed, the item stays
      open for good: a close request is ignored, and scrolling stays off
      until the contact section is toggled. */
  method OpenItemStuck(t: TimelineState, id: ItemId)
    requires t.Valid() && id in t.items && t.itemOpen.None?
    requires OpenTarget(t.items[id], t.activeMonth, t.remainingMonths, t.sectionZ).None?
    modifies t
    ensures t.Valid()
    ensures t.itemOpen == Some(id) && t.itemAnimating && !t.allowScrolling && t.itemTween == ItemIdle
  {
    t.OpenItem(id);
    t.CloseItem();
  }

  /** Toggling the contact link twice before the camera arrives cancels the
      way up: the camera ends at the timeline, the contact section is hidden
      and scrolling is allowed again. */
  method ContactToggleTwice(t: TimelineState)
    requires t.Valid() && !t.contactOpen
    modifies t
    ensures t.Valid()
    ensures !t.contactOpen && !t.contactVisible && t.timelineVisible && t.allowScrolling
    ensures t.cameraY == 0.0 && t.contactTween == ContactIdle
  {
    t.OpenContact();
    t.OpenContact();
    t.ContactTweenComplete();
  }
}
