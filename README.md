# Timeline interaction engine

A Dafny model of the interaction engine inside the "2018 in review" timeline
component (`src/components/Timeline.js`). The component is a Three.js scene:
a timeline of month sections stacked in depth, with the camera fixed and the
timeline moving towards it as the user scrolls. Under the rendering and
animation plumbing there is a small sequential engine, and this project
models it:

- **Layout** (`layout.dfy`). The layout builder walks the months in
  configuration order. Each section sits at a running depth `nextMonthPos`,
  and each month records the threshold depth at which it becomes active
  (section depth + 1100). The depth of the `end` section bounds scrolling.
  Every item gets an index within its month and a running total index.
  `BuildLayout` is the builder's loop. It is proved equal to the fold
  `Built`, and the lemmas relate `Built` to the reference sum `SectionZ`.
- **Input** (`input.dfy`). The cross-browser wheel normaliser and the pan
  handler turn events into changes of the scroll target.
- **Motion** (`motion.dfy`). One animation frame: auto-move, the clamp of the
  scroll target to `[0, -stopScrollPos]`, the damped step of a twelfth of
  the gap, and the settling test. The lemmas show that frames without input
  converge on the clamped target without overshooting.
- **Theme** (`theme.dfy`). Which month thresholds the timeline has passed,
  and when the active month changes.
- **Items** (`items.dfy`). Each item is sent to the corner of its alignment
  quadrant while another item is open. This file also gives the item state
  left once the open and close transitions complete.
- **Videos** (`videos.dfy`). The per-frame play/pause gate.
- **Timeline** (`timeline.dfy`). The class `TimelineState` holds all mutable
  state: scroll fields, focus-mode flags and theme fields. It has one method
  per handler: frame, wheel, pan, long press, press, release, open or close
  an item, and toggle the contact section.

Every animation is modelled by its end state. Starting a tween records it as
pending (`ItemTween`, `ContactTween`, `autoMoveRamp`). A separate completion
method then assigns the tween's target values and runs its completion
callback. Starting a camera tween replaces the one pending, because the
animation library overwrites a running tween of the same property. So
toggling the contact link twice cancels the way up.

The model keeps these behaviours of the code as written:

- **Opening an item can leave it stuck.** Opening an item of a month other
  than the active one reads the section of the second-to-last passed month.
  With fewer than two months passed, that lookup fails after the mode flags
  are already set, so no transition ever starts. `itemAnimating` then stays
  set, and every close request is ignored (`OpenItemStuck`).
- **Closing the contact section can re-enable scrolling under an open item.**
  When the camera arrives back, scrolling is allowed again even if an item
  is still open.
- **The last video is never gated.** The gate visits the videos below
  `videoCount`, which is one less than their number, so the last video
  keeps its state (`LastVideoUngated`).
- **A missing end section means no upper clamp.** Without an `end` section,
  `stopScrollPos` is never set and the upper clamp never applies.
  `stopScrollPos` is `None` in that case.

JavaScript truthiness is modelled explicitly. A wheel field of 0 is falsy.
The empty string is a falsy month (`Truthy`).

## Model

| member | source | states |
|---|---|---|
| Layout.AddMonthItems | src/components/Timeline.js:171-191 | the item loop appends exactly the month's items: ids `month/file` in file order, per-month index from 0, total index continuing from the count so far |
| Layout.BuildLayout | src/components/Timeline.js:150-210 | the month loop computes exactly the fold `Built` of the per-month step over all months; so one month position per month in order, each 1100 behind its section's depth as the reference sum `SectionZ` gives it, the final running depth is `SectionZ`, and every item's total index is its creation position |
| Layout.RunningDepth | src/components/Timeline.js:150-202 | the running `nextMonthPos` after k months is the reference sum `SectionZ`: each month subtracts its margin (1300 after intro, 1800 after dec, else 800) minus its bbox min z |
| Layout.SectionKeys | src/components/Timeline.js:154-197 | a section depth is recorded for exactly the months visited |
| Layout.SectionDepths | src/components/Timeline.js:197 | with distinct month keys, every month's section sits at the running depth reached before it |
| Layout.MonthThresholds | src/components/Timeline.js:198 | month positions are in configuration order, one per month, each its section depth + 1100 |
| Layout.StopScrollPos | src/components/Timeline.js:206-208 | the stop position is the end section's depth, and absent when there is no end month |
| Layout.SectionsDescend | src/components/Timeline.js:199-202 | when every section's bbox minimum z is at most 0 (always so: each built section has a mesh at z = 0), each later section is at least 800 deeper than the previous |
| Layout.ItemTotals | src/components/Timeline.js:150-189 | the total index of every item is its position in creation order |
| Layout.ItemMonths | src/components/Timeline.js:156-175 | items belong to visited ordinary months only: never intro or end |
| Layout.ItemIndices | src/components/Timeline.js:171-189 | the per-month index starts at 0 and goes up by one within a month, restarting at 0 at each new month |
| Input.NormalizeWheelDelta | src/components/Timeline.js:636-643 | the three encodings: wheelDelta over 40 per unit of detail, deltaY over 60 negated, wheelDelta over 120; negative exactly for a forward scroll |
| Input.WheelScroll | src/components/Timeline.js:631-643 | a wheel event raises the scroll target exactly when it scrolls forward, leaves it alone exactly when no motion field is set, and moves it by 20 per normalised unit: wheelDelta/(2·|detail|), deltaY/3 or wheelDelta/6 with the sign flipped |
| Input.NotchesAgree | src/components/Timeline.js:636-643 | one notch forward or back moves the target by 20 in each of the three encodings, whatever the sign of `detail` |
| Input.PanScroll | src/components/Timeline.js:964-967 | an upward pan raises the target, by six times the speed |
| Items.CornerOf | src/components/Timeline.js:497-500 | each quadrant goes to a corner 700 away on both axes; quadrants 0 and 3 to the left, 0 and 1 to positive y |
| Items.CornersDistinct | src/components/Timeline.js:497-500 | distinct quadrants go to distinct corners |
| Items.OpenedItems | src/components/Timeline.js:417-515 | once the opening tweens complete, the opened item is centred (x = y = 0) and fully revealed; every other item sits at its quadrant's corner with opacity 0; the set of items and each item's month, depth, laid-out position, quadrant and `active` flag are kept |
| Items.ClosedItems | src/components/Timeline.js:526-581 | once the closing tweens complete, the closed item is back at its laid-out x/y with progress 0; every inactive item is back at its laid-out x/y at opacity 1; active items other than the closed one are untouched; the set of items and each item's layout fields are kept |
| Items.OpenCloseItems | src/components/Timeline.js:495-581 | open then close returns the item to its laid-out x/y with no reveal; inactive items return with full opacity; active others stay at their corner, faded |
| Motion.Clamp | src/components/Timeline.js:903-904 | the clamped target lies in `[0, -stopScrollPos]`, is at least 0 without an end section, is unchanged when already in range, is exactly 0 at or below 0 and exactly `-stopScrollPos` at or above it |
| Motion.ClampIdempotent | src/components/Timeline.js:903-904 | clamping twice is clamping once |
| Motion.AutoMove | src/components/Timeline.js:895-898 | a positive speed advances the target by exactly that speed and sets scrolling; otherwise nothing changes |
| Motion.SmoothStep | src/components/Timeline.js:903-922 | the target is clamped, eleven twelfths of the gap to it remain, and scrolling goes on exactly when the step exceeds 0.1 |
| Motion.ScrollTick | src/components/Timeline.js:895-922 | without the smooth branch, depth unchanged, target moved only by a positive speed and scrolling set only by it; with it: the target is the clamp of the moved target, a step of exactly a twelfth of the gap, no overshoot, scrolling kept iff the step exceeds 0.1 |
| Motion.FramesAreTicks | src/components/Timeline.js:886-922 | the frame sequence is repeated input-free ticks |
| Motion.Shrink | src/components/Timeline.js:906-907 | a gap shrunk frame after frame keeps its sign and never grows; strictly shrinks when nonzero |
| Motion.ShrinkShift | src/components/Timeline.js:906-907 | shrinking an already shrunk gap counts one more frame |
| Motion.FramesConverge | src/components/Timeline.js:901-922 | after any number of frames without input the target is the clamped one and the gap is the initial gap shrunk once per moving frame, at least once |
| Theme.PassedMonths | src/components/Timeline.js:786-788 | a month is in the result exactly when its threshold is passed; never longer than the positions |
| Theme.PassedIsPrefix | src/components/Timeline.js:786-788 | with descending thresholds the passed months are the first ones, in layout order |
| Theme.LastPassed | src/components/Timeline.js:790 | the last entry of the passed months, present exactly when the list is non-empty and that entry is truthy |
| Theme.ChangeTheme | src/components/Timeline.js:790-796 | a truthy override wins and fires; otherwise the active month becomes the deepest passed month, a transition fires exactly when the month changes, and with no truthy passed month nothing changes or fires |
| Theme.ThemeSettles | src/components/Timeline.js:790-796 | a second request at the same depth fires nothing |
| Theme.ActiveIsDeepestPassed | src/components/Timeline.js:786-796 | with descending thresholds the new active month is the last month whose threshold is passed, and the next one is not passed |
| Theme.LayoutThresholdsDescend | src/components/Timeline.js:197-202 | the thresholds the layout records descend, so the theme's prefix property applies to it |
| Videos.Gate | src/components/Timeline.js:873-880 | after the gate a video is paused exactly when out of view; it changes only when its state disagrees with the view |
| Videos.GatePass | src/components/Timeline.js:871-882 | videos below the count are playing iff in view; the others keep their state |
| Videos.GateIdempotent | src/components/Timeline.js:871-882 | a second pass with the same view changes nothing |
| Videos.GateForgetsState | src/components/Timeline.js:871-882 | the outcome for the gated videos depends only on the view |
| Videos.LastVideoUngated | src/components/Timeline.js:212 | with the count one below the number of videos, the last video keeps its state and all others follow the view |
| Timeline.Route | src/components/Timeline.js:653-690 | contact mode beats item mode beats browsing; in a focus mode a hit link is clicked (if it has a handler) and any other press closes the mode; items are only opened while browsing |
| Timeline.OffsetMonth | src/components/Timeline.js:411-415 | the offset comes from the active month for its own items, otherwise from the second-to-last passed month, which exists only when two months are passed |
| Timeline.OpenTarget | src/components/Timeline.js:411-435 | the target exists exactly when the section lookups succeed, and rests the item 300 in front of the origin measured from the offset section |
| Timeline.TimelineState.constructor | src/components/Timeline.js:38-70 | initial state: at rest, scrolling allowed, intro month active, nothing passed, no mode open, layout and videos as given; the scene's items are exactly the laid-out ones, each in its month |
| Timeline.TimelineState.Tick | src/components/Timeline.js:895-922 | the scroll fields follow `ScrollTick`; when the smooth branch runs, the videos are gated and the theme updated at the new depth, and otherwise neither changes |
| Timeline.TimelineState.ScrollStep | src/components/Timeline.js:895-907 | auto-move and the smooth step agree with `ScrollTick`, report whether the smooth branch ran, and leave the scrolling flag set when it did |
| Timeline.TimelineState.SmoothScroll | src/components/Timeline.js:903-907 | the clamp and the damped move agree with `SmoothStep` |
| Timeline.TimelineState.HandleVideos | src/components/Timeline.js:871-882 | the loop leaves the paused states equal to one `GatePass`; nothing else changes |
| Timeline.TimelineState.ChangeColours | src/components/Timeline.js:786-796 | the passed months and active month are those `PassedMonths` and `ChangeTheme` give |
| Timeline.TimelineState.Wheel | src/components/Timeline.js:629-634 | the target moves by `WheelScroll` and scrolling starts |
| Timeline.TimelineState.PanMove | src/components/Timeline.js:964-967 | the target moves by `PanScroll` and scrolling starts |
| Timeline.TimelineState.PanEnd | src/components/Timeline.js:971 | auto-move stops |
| Timeline.TimelineState.LongPress | src/components/Timeline.js:972 | auto-move at speed 10 |
| Timeline.TimelineState.AutoMoveRampComplete | src/components/Timeline.js:683-686 | the scheduled ramp ends at speed 20 |
| Timeline.TimelineState.MouseUp | src/components/Timeline.js:694-699 | release clears the hold, cancels the ramp and stops auto-move |
| Timeline.TimelineState.MouseDown | src/components/Timeline.js:647-692 | sets the hold, dispatches as `Route` says, and has exactly the effect of the handler it routes to: the scroll permission, saved depth and timeline visibility change only on the routes that set them, and a close request keeps the open item |
| Timeline.TimelineState.OpenItem | src/components/Timeline.js:404-435 | sets animating, the open item, the original depth and no scrolling; the transition is pending only when `OpenTarget` exists |
| Timeline.TimelineState.OpenItemComplete | src/components/Timeline.js:417-515 | items as `OpenedItems`, timeline at the target depth, animating cleared |
| Timeline.TimelineState.CloseItem | src/components/Timeline.js:521-524 | starts closing only when no transition runs and an item is open; otherwise nothing changes |
| Timeline.TimelineState.CloseItemComplete | src/components/Timeline.js:526-581 | items as `ClosedItems`, timeline back at the original depth, scrolling allowed, no item open, animating cleared |
| Timeline.TimelineState.OpenContact | src/components/Timeline.js:591-609 | on an open contact section delegates to closing it; otherwise shows and opens it, stops scrolling and starts the camera up |
| Timeline.TimelineState.CloseContact | src/components/Timeline.js:611-627 | the timeline shows again, the section is closed and the camera starts down |
| Timeline.TimelineState.ContactTweenComplete | src/components/Timeline.js:601-624 | arriving up hides the timeline; arriving down hides the section and allows scrolling, whatever else is open |
| Timeline.OpenCloseRoundTrip | src/components/Timeline.js:526-538 | open, complete, close, complete: depth restored, scrolling allowed, nothing open, the item back at its laid-out x/y |
| Timeline.OpenItemStuck | src/components/Timeline.js:404-415 | when the target lookup fails, the item stays open and animating, and a close request is ignored |
| Timeline.ContactToggleTwice | src/components/Timeline.js:591-624 | toggling twice before arrival ends with the camera down, the section hidden and scrolling allowed |

## Left out

- Rendering is not modelled: the Three.js scene construction (intro, end and contact sections, the badge, text geometry, materials, shaders). Each section's bounding-box minimum z is an input.
- Raycasting and frustum tests are inputs: the press takes the link hit and the item hit of the last pointer move, and the video gate takes one in-view flag per video. `mouseMove`, which refreshes those hits, is not modelled.
- Tween timing, easing and delays are not modelled. Each tween is one completion event that assigns its targets. Tweens of different lengths started together are taken to complete together. The intermediate values of the auto-move ramp are not modelled.
- Material opacity and visibility of the text, caption and link-underline materials, caption and link-group visibility, and the cursor's dataset are not modelled. These are display side effects.
- The colour cross-fades of a theme change are not modelled. `ChangeColours` reports only whether one starts.
- Link click handlers (`window.open`, the mailto link) are not modelled. A click is reported as `LinkClicked`.
- `updatePerspective`, the circle rotation in the frame, `resize`, the device-orientation controls and the rendering call are not modelled.
- Asset loading and `preventPullToRefresh` are not modelled. The gesture library is reduced to the pan, pan-end and long-press handlers.
- Wheel event fields that are absent (`undefined`, giving NaN in the normaliser) are not modelled. Fields are numbers, and 0 is falsy.
- `Item.js`, which assigns each item's alignment quadrant and its `active` flag, is not part of this model. Quadrants are 0 to 3, and `active` is kept as given.
- Timeline.TimelineState.OpenItem: requires that no item is open, which its only caller (the press handler) guarantees.
- Timeline.TimelineState.MouseDown: for a close request during a transition, its contract states that the pending transition is kept rather than restating every field of `CloseItem`.
- The months dictionary is a sequence in key-insertion order. Distinct keys are assumed where the lemmas need them, as object keys are.
