/**
 * Month selection for the colour theme: which month thresholds the timeline
 * has passed, and when the active month (and so the palette) changes.
 */
module Theme {
  import opened Common
  import opened Layout

  /** A month counts as reached once the timeline's depth exceeds its negated threshold. */
  predicate Passed(mp: MonthPosition, z: real)
  {
    z > -mp.threshold
  }

  /** The months whose thresholds the timeline depth `z` has passed, in layout order. */
  function PassedMonths(positions: seq<MonthPosition>, z: real): (r: seq<MonthId>)
    ensures |r| <= |positions|
    ensures forall m :: m in r <==> exists i :: 0 <= i < |positions| && positions[i].month == m && Passed(positions[i], z)
  {
    if |positions| == 0 then []
    else
      var rest := PassedMonths(positions[..|positions| - 1], z);
      var last := positions[|positions| - 1];
      assert forall i :: 0 <= i < |positions| - 1 ==> positions[..|positions| - 1][i] == positions[i];
      if Passed(last, z) then rest + [last.month] else rest
  }

  /** Thresholds that never increase along the layout. */
  predicate Descending(positions: seq<MonthPosition>)
  {
    forall i, j :: 0 <= i < j < |positions| ==> positions[j].threshold <= positions[i].threshold
  }

  /** With descending thresholds the passed months are a prefix of the layout:
      the i-th month is among them exactly when i is below their count, and
      they are listed in layout order. */
  lemma {:induction false} PassedIsPrefix(positions: seq<MonthPosition>, z: real)
    requires Descending(positions)
    ensures var r := PassedMonths(positions, z);
      && (forall i :: 0 <= i < |positions| ==> (i < |r| <==> Passed(positions[i], z)))
      && (forall i :: 0 <= i < |r| ==> r[i] == positions[i].month)
  {
    if |positions| > 0 {
      var front := positions[..|positions| - 1];
      assert Descending(front);
      PassedIsPrefix(front, z);
      var rest := PassedMonths(front, z);
      var last := positions[|positions| - 1];
      if Passed(last, z) {
        forall i | 0 <= i < |front| ensures Passed(front[i], z) {
          assert positions[|positions| - 1].threshold <= positions[i].threshold;
        }
        assert |rest| == |front|;
      }
    }
  }

  /** The outcome of a colour change request: the new active month and
      whether a palette transition was started. */
  datatype ThemeUpdate = ThemeUpdate(activeMonth: MonthId, fired: bool)

  /** A JavaScript-truthy month: present and not the empty string. */
  predicate Truthy(m: Option<MonthId>)
  {
    m.Some? && m.value != ""
  }

  /** The last passed month, when there is one and it is truthy. */
  function LastPassed(remaining: seq<MonthId>): (r: Option<MonthId>)
    ensures Truthy(r) <==> |remaining| > 0 && remaining[|remaining| - 1] != ""
    ensures Truthy(r) ==> r.value == remaining[|remaining| - 1]
  {
    if |remaining| > 0 && remaining[|remaining| - 1] != "" then Some(remaining[|remaining| - 1]) else None
  }

  /** The active-month decision: a truthy override always wins and fires;
      otherwise the theme moves to the deepest passed month when it differs
      from the active one, and nothing happens when it does not. */
  function ChangeTheme(active: MonthId, remaining: seq<MonthId>, override: Option<MonthId>): (u: ThemeUpdate)
    ensures Truthy(override) ==> u.fired && u.activeMonth == override.value
    ensures !Truthy(override) && Truthy(LastPassed(remaining)) ==> u.activeMonth == LastPassed(remaining).value
    ensures !Truthy(override) ==> (u.fired <==> u.activeMonth != active)
    ensures !u.fired ==> u.activeMonth == active
    // with nothing truthy to move to, the theme stays put
    ensures !Truthy(override) && !Truthy(LastPassed(remaining)) ==> u == ThemeUpdate(active, false)
  {
    var last := LastPassed(remaining);
    if Truthy(override) || (Truthy(last) && active != last.value) then
      if Truthy(override) then ThemeUpdate(override.value, true)
      else ThemeUpdate(last.value, true)
    else ThemeUpdate(active, false)
  }

  /** After a request without an override (or with one naming the deepest
      passed month), a second request at the same depth changes nothing: the
      theme settles after one transition. */
  lemma ThemeSettles(active: MonthId, remaining: seq<MonthId>, override: Option<MonthId>)
    requires !Truthy(override) || override == LastPassed(remaining)
    ensures !ChangeTheme(ChangeTheme(active, remaining, override).activeMonth, remaining, None).fired
  {
  }

  /** With descending thresholds, once some month is passed a request without
      override makes the deepest passed month (the last one in layout order
      whose threshold is passed) the active one. */
  lemma ActiveIsDeepestPassed(active: MonthId, positions: seq<MonthPosition>, z: real)
    requires Descending(positions)
    requires forall i :: 0 <= i < |positions| ==> positions[i].month != ""
    ensures var r := PassedMonths(positions, z);
      var u := ChangeTheme(active, r, None);
      |r| > 0 ==>
        && Passed(positions[|r| - 1], z)
        && u.activeMonth == positions[|r| - 1].month
        && (|r| < |positions| ==> !Passed(positions[|r|], z))
  {
    PassedIsPrefix(positions, z);
  }

  /** The layout's month thresholds descend whenever every section's
      bounding-box minimum z is at most 0 (as it is for every built section),
      so the passed months are a prefix of the layout. */
  lemma {:induction false} LayoutThresholdsDescend(slots: seq<MonthSlot>)
    requires forall k :: 0 <= k < |slots| ==> slots[k].bboxMinZ <= 0.0
    ensures Descending(Built(slots, |slots|).monthPositions)
  {
    var ps := Built(slots, |slots|).monthPositions;
    MonthThresholds(slots, |slots|);
    forall i, j | 0 <= i < j < |ps| ensures ps[j].threshold <= ps[i].threshold {
      SectionsDescend(slots, i, j);
    }
  }
}
