/**
 * The items of the timeline as the focus transitions see them: where each
 * item sits, where it returns to, which corner it is pushed to while another
 * item is open, and the targets that opening and closing an item assign.
 */
module Items {
  import opened Common

  /** The four alignment quadrants an item is created with. */
  type Align = a: int | 0 <= a < 4

  /** An item: its month, its current x/y, its depth within its section, the
      position it was laid out at, its alignment quadrant, its material
      opacity, its reveal progress and the `active` flag the item keeps itself. */
  datatype Item = Item(
    month: MonthId,
    x: real, y: real, z: real,
    origX: real, origY: real,
    align: Align,
    opacity: real,
    progress: real,
    active: bool)

  /** A point of the item plane. */
  datatype Corner = Corner(x: real, y: real)

  /** How far off-centre the other items are pushed while an item is open. */
  const CornerDistance: real := 700.0

  /** The off-screen corner for each alignment quadrant: quadrants 0 and 3
      go to negative x, 1 and 2 to positive x; 0 and 1 to positive y, 2 and 3
      to negative y. */
  function CornerOf(align: Align): (c: Corner)
    ensures Abs(c.x) == CornerDistance && Abs(c.y) == CornerDistance
    ensures c.x < 0.0 <==> align == 0 || align == 3
    ensures c.y > 0.0 <==> align == 0 || align == 1
  {
    match align
    case 0 => Corner(-700.0, 700.0)
    case 1 => Corner(700.0, 700.0)
    case 2 => Corner(700.0, -700.0)
    case 3 => Corner(-700.0, -700.0)
  }

  /** Distinct quadrants are sent to distinct corners. */
  lemma CornersDistinct(a: Align, b: Align)
    requires a != b
    ensures CornerOf(a) != CornerOf(b)
  {
  }

  /** What no open or close transition touches: the item's month, depth,
      laid-out position, quadrant and `active` flag. */
  predicate SameLayout(a: Item, b: Item)
  {
    a.month == b.month && a.z == b.z && a.origX == b.origX && a.origY == b.origY
    && a.align == b.align && a.active == b.active
  }

  /** The item state once every tween started by opening `id` has completed:
      the opened item is centred and fully revealed, every other item is
      faded out and pushed to its quadrant's corner. */
  function OpenedItems(items: map<ItemId, Item>, id: ItemId): (r: map<ItemId, Item>)
    ensures r.Keys == items.Keys
    ensures forall j :: j in r ==> SameLayout(r[j], items[j])
    // the opened item sits in the centre, fully revealed, at its own opacity
    ensures id in items ==>
      r[id].x == 0.0 && r[id].y == 0.0 && r[id].progress == 1.0 && r[id].opacity == items[id].opacity
    // every other item is invisible at its quadrant's corner, its reveal untouched
    ensures forall j :: j in items && j != id ==>
      && Corner(r[j].x, r[j].y) == CornerOf(items[j].align)
      && r[j].opacity == 0.0 && r[j].progress == items[j].progress
  {
    map j | j in items ::
      if j == id then items[j].(x := 0.0, y := 0.0, progress := 1.0)
      else items[j].(x := CornerOf(items[j].align).x, y := CornerOf(items[j].align).y, opacity := 0.0)
  }

  /** The item state once every tween started by closing `id` has completed:
      the closed item is back at its original position with no reveal, and
      every item that is not `active` is back at its original position at
      full opacity. */
  function ClosedItems(items: map<ItemId, Item>, id: ItemId): (r: map<ItemId, Item>)
    ensures r.Keys == items.Keys
    ensures forall j :: j in r ==> SameLayout(r[j], items[j])
    // the closed item is back where it was laid out, with no reveal
    ensures id in items ==>
      r[id].x == items[id].origX && r[id].y == items[id].origY && r[id].progress == 0.0
    // an inactive item is back where it was laid out, fully visible
    ensures forall j :: j in items && !items[j].active ==>
      r[j].x == items[j].origX && r[j].y == items[j].origY && r[j].opacity == 1.0
    // the reveal of the other items, and everything about active ones, is untouched
    ensures forall j :: j in items && j != id ==> r[j].progress == items[j].progress
    ensures forall j :: j in items && j != id && items[j].active ==> r[j] == items[j]
    ensures id in items && items[id].active ==> r[id].opacity == items[id].opacity
  {
    map j | j in items ::
      var it := if j == id then items[j].(x := items[j].origX, y := items[j].origY, progress := 0.0) else items[j];
      if it.active then it else it.(x := it.origX, y := it.origY, opacity := 1.0)
  }

  /** Closing what was opened puts the item back where it was laid out with no
      reveal, restores every inactive item's position and opacity, and leaves
      an active item other than the opened one at its corner. Nothing else
      about an item changes. */
  lemma OpenCloseItems(items: map<ItemId, Item>, id: ItemId)
    requires id in items
    ensures var r := ClosedItems(OpenedItems(items, id), id);
      && r.Keys == items.Keys
      && r[id].x == items[id].origX && r[id].y == items[id].origY && r[id].progress == 0.0
      && (forall j :: j in items && !items[j].active ==>
            r[j] == items[j].(x := items[j].origX, y := items[j].origY, opacity := 1.0,
                              progress := if j == id then 0.0 else items[j].progress))
      && (forall j :: j in items && items[j].active && j != id ==>
            r[j] == items[j].(x := CornerOf(items[j].align).x, y := CornerOf(items[j].align).y, opacity := 0.0))
      && (items[id].active ==> r[id] == items[id].(x := items[id].origX, y := items[id].origY, progress := 0.0))
  {
  }
}
