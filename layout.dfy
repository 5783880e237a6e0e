/**
 * The offset arithmetic of the layout builder: sections are placed one after
 * another along the depth axis, each month records the depth at which it
 * becomes active, the end section's depth bounds scrolling, and every item
 * receives a per-month index and a running total index.
 *
 * The scene graph itself is not modelled: each section contributes only the
 * minimum z of its bounding box, which is an input here.
 */
module Layout {
  import opened Common

  /** One entry of the ordered months configuration, with the texture file
      names loaded for it and the bounding-box minimum z of its built section. */
  datatype MonthSlot = MonthSlot(month: MonthId, files: seq<string>, bboxMinZ: real)

  /** An entry of the month-position dictionary, in insertion order. */
  datatype MonthPosition = MonthPosition(month: MonthId, threshold: real)

  /** An item created for a month: `index` counts within its month, `total` across all months. */
  datatype ItemSlot = ItemSlot(id: ItemId, month: MonthId, index: nat, total: nat)

  /** What the builder has recorded so far, and the depth at which the next section goes. */
  datatype LayoutState = LayoutState(
    sectionZ: map<MonthId, real>,
    monthPositions: seq<MonthPosition>,
    stopScrollPos: Option<real>,
    items: seq<ItemSlot>,
    nextMonthPos: real)

  /** Distance between a section's depth and the depth at which its month becomes active. */
  const ThresholdOffset: real := 1100.0

  /** The margin that separates a section from the next one. */
  function PosOffset(month: MonthId): real
  {
    if month == Intro then 1300.0
    else if month == Dec then 1800.0
    else 800.0
  }

  /** Only ordinary months get an item grid; the intro and end slots have bespoke content. */
  predicate HasItems(month: MonthId)
  {
    month != Intro && month != End
  }

  /** The keys of the months configuration are those of an object: pairwise distinct. */
  predicate DistinctMonths(slots: seq<MonthSlot>)
  {
    forall i, j :: 0 <= i < j < |slots| ==> slots[i].month != slots[j].month
  }

  /** The months of the first k slots. */
  function KeysBefore(slots: seq<MonthSlot>, k: nat): set<MonthId>
    requires k <= |slots|
  {
    set j | 0 <= j < k :: slots[j].month
  }

  /** Reference definition of the depth of the k-th section: the sum of the
      bounding-box extents of the sections before it minus their margins. */
  function SectionZ(slots: seq<MonthSlot>, k: nat): real
    requires k <= |slots|
  {
    if k == 0 then 0.0
    else SectionZ(slots, k - 1) + slots[k - 1].bboxMinZ - PosOffset(slots[k - 1].month)
  }

  /** The items created for one slot when `base` items were created before it. */
  function MonthItems(s: MonthSlot, base: nat): seq<ItemSlot>
  {
    if HasItems(s.month) then
      seq(|s.files|, i requires 0 <= i < |s.files| => ItemSlot(s.month + "/" + s.files[i], s.month, i, base + i))
    else []
  }

  /** One iteration of the builder: place the section at the running depth,
      record its month position (and the stop position for the end section),
      create its items and move the running depth past it. */
  function Place(acc: LayoutState, slot: MonthSlot): LayoutState
  {
    LayoutState(
      acc.sectionZ[slot.month := acc.nextMonthPos],
      acc.monthPositions + [MonthPosition(slot.month, acc.nextMonthPos + ThresholdOffset)],
      if slot.month == End then Some(acc.nextMonthPos) else acc.stopScrollPos,
      acc.items + MonthItems(slot, |acc.items|),
      acc.nextMonthPos + slot.bboxMinZ - PosOffset(slot.month))
  }

  /** The builder's state after the first k slots. */
  function Built(slots: seq<MonthSlot>, k: nat): LayoutState
    requires k <= |slots|
  {
    if k == 0 then LayoutState(map[], [], None, [], 0.0)
    else Place(Built(slots, k - 1), slots[k - 1])
  }

  /** The inner loop of the builder: one item per texture file of an ordinary
      month, the per-month index restarting at 0 and the total index
      continuing from the items created so far. */
  method AddMonthItems(slot: MonthSlot, items: seq<ItemSlot>, itemIndexTotal: nat)
    returns (items': seq<ItemSlot>, itemIndexTotal': nat)
    requires HasItems(slot.month) && itemIndexTotal == |items|
    ensures items' == items + MonthItems(slot, |items|)
    ensures itemIndexTotal' == |items'|
  {
    items', itemIndexTotal' := items, itemIndexTotal;
    var itemIndex: nat := 0;
    while itemIndex < |slot.files|
      invariant itemIndex <= |slot.files|
      invariant items' == items + MonthItems(slot, |items|)[..itemIndex]
      invariant itemIndexTotal' == |items'| == |items| + itemIndex
    {
      var id := slot.month + "/" + slot.files[itemIndex];
      items' := items' + [ItemSlot(id, slot.month, itemIndex, itemIndexTotal')];
      itemIndex := itemIndex + 1;
      itemIndexTotal' := itemIndexTotal' + 1;
    }
    assert MonthItems(slot, |items|)[..itemIndex] == MonthItems(slot, |items|);
  }

  /** Walks the months in configuration order, building the whole layout. */
  method BuildLayout(slots: seq<MonthSlot>) returns (layout: LayoutState)
    ensures layout == Built(slots, |slots|)
    // one month position per month, in order, 1100 behind its section
    ensures |layout.monthPositions| == |slots|
    ensures forall j :: 0 <= j < |slots| ==>
      layout.monthPositions[j] == MonthPosition(slots[j].month, SectionZ(slots, j) + ThresholdOffset)
    ensures layout.nextMonthPos == SectionZ(slots, |slots|)
    ensures forall j :: 0 <= j < |layout.items| ==> layout.items[j].total == j
  {
    var sectionZ: map<MonthId, real> := map[];
    var monthPositions: seq<MonthPosition> := [];
    var stopScrollPos: Option<real> := None;
    var items: seq<ItemSlot> := [];
    var itemIndexTotal: nat := 0;
    var nextMonthPos: real := 0.0;
    var k := 0;
    while k < |slots|
      invariant 0 <= k <= |slots|
      invariant itemIndexTotal == |items|
      invariant LayoutState(sectionZ, monthPositions, stopScrollPos, items, nextMonthPos) == Built(slots, k)
    {
      var slot := slots[k];
      if HasItems(slot.month) {
        items, itemIndexTotal := AddMonthItems(slot, items, itemIndexTotal);
      }
      sectionZ := sectionZ[slot.month := nextMonthPos];
      monthPositions := monthPositions + [MonthPosition(slot.month, nextMonthPos + ThresholdOffset)];
      var posOffset := PosOffset(slot.month);
      nextMonthPos := nextMonthPos + slot.bboxMinZ - posOffset;
      if slot.month == End {
        stopScrollPos := Some(sectionZ[slot.month]);
      }
      k := k + 1;
    }
    layout := LayoutState(sectionZ, monthPositions, stopScrollPos, items, nextMonthPos);
    MonthThresholds(slots, |slots|);
    RunningDepth(slots, |slots|);
    ItemTotals(slots, |slots|);
  }

  /** The running depth of the builder agrees with the reference definition. */
  lemma {:induction false} RunningDepth(slots: seq<MonthSlot>, k: nat)
    requires k <= |slots|
    ensures Built(slots, k).nextMonthPos == SectionZ(slots, k)
  {
    if k > 0 {
      RunningDepth(slots, k - 1);
    }
  }

  /** The sections recorded are exactly the months seen so far. */
  lemma {:induction false} SectionKeys(slots: seq<MonthSlot>, k: nat)
    requires k <= |slots|
    ensures Built(slots, k).sectionZ.Keys == KeysBefore(slots, k)
  {
    if k > 0 {
      SectionKeys(slots, k - 1);
      assert KeysBefore(slots, k) == KeysBefore(slots, k - 1) + {slots[k - 1].month} by {
        forall m | m in KeysBefore(slots, k) ensures m in KeysBefore(slots, k - 1) + {slots[k - 1].month} {
          var j :| 0 <= j < k && slots[j].month == m;
        }
      }
    }
  }

  /** Every section is recorded under its month at the running depth. */
  lemma {:induction false} SectionDepths(slots: seq<MonthSlot>, k: nat)
    requires DistinctMonths(slots) && k <= |slots|
    ensures forall j {:trigger Built(slots, k).sectionZ[slots[j].month]} :: 0 <= j < k ==>
      slots[j].month in Built(slots, k).sectionZ && Built(slots, k).sectionZ[slots[j].month] == SectionZ(slots, j)
  {
    if k > 0 {
      SectionDepths(slots, k - 1);
      RunningDepth(slots, k - 1);
      var prev, slot := Built(slots, k - 1).sectionZ, slots[k - 1];
      var next := Built(slots, k).sectionZ;
      assert next == prev[slot.month := SectionZ(slots, k - 1)];
      forall j | 0 <= j < k
        ensures slots[j].month in next && next[slots[j].month] == SectionZ(slots, j)
      {
        if j < k - 1 {
          assert slots[j].month != slot.month;
          assert next[slots[j].month] == prev[slots[j].month];
        }
      }
    }
  }

  /** The month position of each month is its section's depth plus 1100, in configuration order. */
  lemma {:induction false} MonthThresholds(slots: seq<MonthSlot>, k: nat)
    requires k <= |slots|
    ensures |Built(slots, k).monthPositions| == k
    ensures forall j {:trigger Built(slots, k).monthPositions[j]} :: 0 <= j < k ==>
      Built(slots, k).monthPositions[j] == MonthPosition(slots[j].month, SectionZ(slots, j) + ThresholdOffset)
  {
    if k > 0 {
      MonthThresholds(slots, k - 1);
      RunningDepth(slots, k - 1);
      var prev := Built(slots, k - 1);
      forall j | 0 <= j < k
        ensures Built(slots, k).monthPositions[j] == MonthPosition(slots[j].month, SectionZ(slots, j) + ThresholdOffset)
      {
        if j < k - 1 {
          assert Built(slots, k).monthPositions[j] == prev.monthPositions[j];
        }
      }
    }
  }

  /** The scroll bound is the depth of the end section; without one it stays unset. */
  lemma {:induction false} StopScrollPos(slots: seq<MonthSlot>, k: nat)
    requires DistinctMonths(slots) && k <= |slots|
    ensures forall j :: 0 <= j < k && slots[j].month == End ==> Built(slots, k).stopScrollPos == Some(SectionZ(slots, j))
    ensures (forall j :: 0 <= j < k ==> slots[j].month != End) ==> Built(slots, k).stopScrollPos == None
  {
    if k > 0 {
      StopScrollPos(slots, k - 1);
      RunningDepth(slots, k - 1);
      if slots[k - 1].month == End {
        forall j | 0 <= j < k - 1 ensures slots[j].month != End {
          assert slots[j].month != slots[k - 1].month;
        }
      }
    }
  }

  /** Sections whose bounding-box minimum z is at most 0 (as it is for every
      built section, each of which has a mesh at z = 0) are laid out deeper
      and deeper, at least one ordinary margin apart. */
  lemma {:induction false} SectionsDescend(slots: seq<MonthSlot>, i: nat, j: nat)
    requires forall k :: 0 <= k < |slots| ==> slots[k].bboxMinZ <= 0.0
    requires i <= j <= |slots|
    ensures SectionZ(slots, j) <= SectionZ(slots, i) - 800.0 * (j - i) as real
  {
    if i < j {
      SectionsDescend(slots, i, j - 1);
    }
  }

  /** The total index of every item is its position in creation order. */
  lemma {:induction false} ItemTotals(slots: seq<MonthSlot>, k: nat)
    requires k <= |slots|
    ensures forall j :: 0 <= j < |Built(slots, k).items| ==> Built(slots, k).items[j].total == j
  {
    if k > 0 {
      ItemTotals(slots, k - 1);
      var prev := Built(slots, k - 1).items;
      var added := MonthItems(slots[k - 1], |prev|);
      var items := Built(slots, k).items;
      assert items == prev + added;
      forall j | 0 <= j < |items| ensures items[j].total == j {
        if j < |prev| {
          assert items[j] == prev[j];
        } else {
          assert items[j] == added[j - |prev|];
        }
      }
    }
  }

  /** Every item belongs to a month of the configuration that has an item grid. */
  lemma {:induction false} ItemMonths(slots: seq<MonthSlot>, k: nat)
    requires k <= |slots|
    ensures forall j :: 0 <= j < |Built(slots, k).items| ==>
      Built(slots, k).items[j].month in KeysBefore(slots, k) && HasItems(Built(slots, k).items[j].month)
  {
    if k > 0 {
      ItemMonths(slots, k - 1);
      var prev := Built(slots, k - 1).items;
      var added := MonthItems(slots[k - 1], |prev|);
      var items := Built(slots, k).items;
      assert items == prev + added;
      forall j | 0 <= j < |items|
        ensures items[j].month in KeysBefore(slots, k) && HasItems(items[j].month)
      {
        if j < |prev| {
          assert items[j] == prev[j];
          var m :| 0 <= m < k - 1 && slots[m].month == prev[j].month;
        } else {
          assert items[j] == added[j - |prev|];
          assert slots[k - 1].month == items[j].month;
        }
      }
    }
  }

  /** The per-month index restarts at 0 with each month and otherwise counts up by one. */
  lemma {:induction false} ItemIndices(slots: seq<MonthSlot>, k: nat)
    requires DistinctMonths(slots)
    requires k <= |slots|
    ensures var items := Built(slots, k).items;
      && (|items| > 0 ==> items[0].index == 0)
      && (forall j :: 0 < j < |items| ==>
            items[j].index == if items[j].month == items[j - 1].month then items[j - 1].index + 1 else 0)
  {
    if k > 0 {
      ItemIndices(slots, k - 1);
      var prev := Built(slots, k - 1).items;
      var added := MonthItems(slots[k - 1], |prev|);
      var items := Built(slots, k).items;
      assert items == prev + added;
      forall j | 0 < j < |items|
        ensures items[j].index == if items[j].month == items[j - 1].month then items[j - 1].index + 1 else 0
      {
        if j < |prev| {
          assert items[j] == prev[j] && items[j - 1] == prev[j - 1];
        } else if j == |prev| {
          ItemMonths(slots, k - 1);
          assert items[j] == added[0];
          assert items[j - 1] == prev[j - 1];
          var m :| 0 <= m < k - 1 && slots[m].month == prev[j - 1].month;
          assert slots[m].month != slots[k - 1].month;
        } else {
          assert items[j] == added[j - |prev|] && items[j - 1] == added[j - 1 - |prev|];
        }
      }
    }
  }
}
