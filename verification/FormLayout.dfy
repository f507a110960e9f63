/**
 * The designer's layout engine: bringing fields to their standard size, arranging a form in one or two
 * columns below anything in its way, and finding a free slot for a new field.
 */
module FormLayout {
  import opened Common

  /** The layout schema asks for whole numbers: positions from 0, sizes from 1. */
  type Positive = n: int | n > 0 witness 1

  const GRID := 8
  const PAGE_MARGIN := 24
  const ROW_GAP := 16
  const COLUMN_GAP := 24
  const LABEL_SPACE := 24
  const OPTION_HEIGHT := 24
  const TEXT_WIDTH := 240
  const NUMBER_WIDTH := 120
  const TEMPORAL_WIDTH := 160
  const INPUT_HEIGHT := 34
  const MULTILINE_HEIGHT := 96
  const CONTAINER_HEIGHT := 160

  function Clamp(value: int, min: int, max: int): int { Max(min, Min(max, value)) }

  /** Math.round(value / GRID) * GRID. */
  function SnapToGrid(value: int): (r: int)
    ensures r % GRID == 0 && r - GRID / 2 <= value < r + GRID / 2
  {
    (value + GRID / 2) / GRID * GRID
  }

  /** Math.ceil(value / GRID) * GRID. */
  function RoundUp(value: int): (r: int)
    ensures r % GRID == 0 && value <= r < value + GRID
  {
    (value + GRID - 1) / GRID * GRID
  }

  // ---- Objects ----

  datatype Control = Input | TextArea | Choice(options: int) | Container

  datatype Value = Number | Temporal | OtherValue

  datatype Shape = Shape(control: Control, value: Value)

  datatype Size = Size(width: Positive, height: Positive)

  /** The standard size of a control. Every size is positive, whatever the metadata says. */
  function StandardSize(s: Shape): (size: Size)
    ensures 120 <= size.width <= 240 && 34 <= size.height <= 1200
  {
    Size(match s.value case Number => NUMBER_WIDTH case Temporal => TEMPORAL_WIDTH case OtherValue => TEXT_WIDTH,
         match s.control
         case Container => CONTAINER_HEIGHT
         case TextArea => MULTILINE_HEIGHT
         case Choice(options) => Max(INPUT_HEIGHT, Min(50, Max(1, options)) * OPTION_HEIGHT)
         case Input => INPUT_HEIGHT)
  }

  datatype LabelPosition = Top | OtherPosition

  datatype Kind = Field(name: string, displayType: string, labelAt: LabelPosition) | Portal | OtherObject

  /** `data` stands for everything about an object that the layout engine never reads. */
  datatype Object = Object(id: string, kind: Kind, x: nat, y: nat, width: Positive, height: Positive, data: string)

  datatype Canvas = Canvas(width: Positive, height: Positive)

  datatype Layout = Layout(canvas: Canvas, objects: seq<Object>)

  /** What the field metadata of the database makes of a field name and a display type. */
  type Shapes = (string, string) -> Shape

  /** Where the metadata ranks a field name; unknown names come last. */
  type Ranks = string -> nat

  type Selection = Option<set<string>>

  predicate Included(o: Object, ids: Selection) { ids.None? || o.id in ids.value }

  predicate Movable(o: Object, ids: Selection) { (o.kind.Field? || o.kind.Portal?) && Included(o, ids) }

  ghost predicate DistinctIds(objects: seq<Object>) {
    forall i, j :: 0 <= i < j < |objects| ==> objects[i].id != objects[j].id
  }

  // ---- Rectangles ----

  datatype Rect = Rect(x: int, y: int, width: int, height: int)

  predicate Intersect(a: Rect, b: Rect) {
    a.x < b.x + b.width && a.x + a.width > b.x && a.y < b.y + b.height && a.y + a.height > b.y
  }

  /** An object with the room its top label takes when it is a field. */
  function BoxOf(o: Object): Rect {
    Rect(o.x, o.y, o.width, o.height + if o.kind.Field? then LABEL_SPACE else 0)
  }

  function Bottom(r: Rect): int { r.y + r.height }

  // ---- Standard sizes ----

  function Standardized(o: Object, shapes: Shapes, canvas: Canvas): Object
    requires o.kind.Field?
  {
    var size := StandardSize(shapes(o.kind.name, o.kind.displayType));
    var maxX := Max(0, (canvas.width - size.width) / GRID * GRID);
    var maxY := Max(0, (canvas.height - size.height - LABEL_SPACE) / GRID * GRID);
    o.(width := size.width, height := size.height,
       x := Clamp(SnapToGrid(o.x), 0, maxX), y := Clamp(SnapToGrid(o.y), 0, maxY), kind := o.kind.(labelAt := Top))
  }

  predicate Resizes(o: Object, ids: Selection) { o.kind.Field? && Included(o, ids) }

  function StandardizeObjects(objects: seq<Object>, shapes: Shapes, canvas: Canvas, ids: Selection): seq<Object> {
    seq(|objects|, i requires 0 <= i < |objects| =>
      if Resizes(objects[i], ids) then Standardized(objects[i], shapes, canvas) else objects[i])
  }

  /** The canvas grown to hold the standardized fields. */
  function Grown(canvas: Canvas, objects: seq<Object>, ids: Selection): Canvas {
    if objects == [] then canvas
    else
      var c := Grown(canvas, objects[..|objects| - 1], ids);
      var o := objects[|objects| - 1];
      if Resizes(o, ids)
      then Canvas(Max(c.width, o.x + o.width), Max(c.height, o.y + o.height + LABEL_SPACE)) else c
  }

  function StandardizeFields(l: Layout, shapes: Shapes, ids: Selection): Layout {
    var objects := StandardizeObjects(l.objects, shapes, l.canvas, ids);
    Layout(Grown(l.canvas, objects, ids), objects)
  }

  // ---- The arrangement ----

  /** What the arrangement reads of an object: not where it is. */
  datatype Item = Item(id: string, name: string, width: Positive, height: Positive)

  /** The width of a portal plays no part: it gets the full width. */
  function ItemOf(o: Object): Item {
    if o.kind.Field? then Item(o.id, o.kind.name, o.width, o.height) else Item(o.id, "", 1, o.height)
  }

  /** The selected fields, or the selected portals. */
  predicate Wanted(o: Object, ids: Selection, fields: bool) { Included(o, ids) && if fields then o.kind.Field? else o.kind.Portal? }

  function Items(objects: seq<Object>, ids: Selection, fields: bool): seq<Item> {
    if objects == [] then []
    else
      var o := objects[|objects| - 1];
      Items(objects[..|objects| - 1], ids, fields) + if Wanted(o, ids, fields) then [ItemOf(o)] else []
  }

  /** Inserts behind every item that ranks no later, as a stable sort does. */
  function Insert(items: seq<Item>, item: Item, rank: Ranks): seq<Item> {
    if items == [] || rank(items[|items| - 1].name) <= rank(item.name) then items + [item]
    else Insert(items[..|items| - 1], item, rank) + [items[|items| - 1]]
  }

  function SortByRank(items: seq<Item>, rank: Ranks): seq<Item> {
    if items == [] then [] else Insert(SortByRank(items[..|items| - 1], rank), items[|items| - 1], rank)
  }

  function Widest(items: seq<Item>): Positive {
    if items == [] then TEXT_WIDTH else Max(Widest(items[..|items| - 1]), items[|items| - 1].width)
  }

  /** Room for an item with `space` for its label, up to the next grid line. */
  function Room(item: Item, space: nat): Positive { RoundUp(item.height + space + ROW_GAP) }

  /** Where a stack that starts at `y` ends. */
  function Below(items: seq<Item>, space: nat, y: nat): (r: nat)
    ensures r >= y
  {
    if items == [] then y else Below(items[..|items| - 1], space, y) + Room(items[|items| - 1], space)
  }

  datatype Placed = Placed(id: string, isField: bool, x: nat, y: nat, width: Positive, height: Positive)

  function BoxAt(p: Placed, shift: int): Rect {
    Rect(p.x, p.y + shift, p.width, p.height + if p.isField then LABEL_SPACE else 0)
  }

  /** Fields one below the other, each with its own width. */
  function Column(items: seq<Item>, x: nat, y: nat): (c: seq<Placed>)
    ensures |c| == |items|
    ensures forall i :: 0 <= i < |items| ==>
              c[i] == Placed(items[i].id, true, x, Below(items[..i], LABEL_SPACE, y), items[i].width, items[i].height)
  {
    seq(|items|, i requires 0 <= i < |items| =>
      Placed(items[i].id, true, x, Below(items[..i], LABEL_SPACE, y), items[i].width, items[i].height))
  }

  /** Portals one below the other, each over the full width. */
  function Portals(items: seq<Item>, x: nat, y: nat, width: Positive): (c: seq<Placed>)
    ensures |c| == |items|
    ensures forall i :: 0 <= i < |items| ==>
              c[i] == Placed(items[i].id, false, x, Below(items[..i], 0, y), width, items[i].height)
  {
    seq(|items|, i requires 0 <= i < |items| =>
      Placed(items[i].id, false, x, Below(items[..i], 0, y), width, items[i].height))
  }

  /** Everything the placement depends on. */
  datatype Plan = Plan(fields: seq<Item>, portals: seq<Item>, x: nat, y: nat, columnWidth: Positive,
                       twoColumns: bool, fullWidth: Positive) {
    function Columns(): Positive { if twoColumns then 2 else 1 }

    /** How many fields go into the first column: half of them, rounded up, or all. */
    function Split(): (n: nat)
      ensures n <= |fields|
    {
      (|fields| + Columns() - 1) / Columns()
    }

    function PortalTop(): (r: nat)
      ensures r >= y
    {
      Max(Below(fields[..Split()], LABEL_SPACE, y), Below(fields[Split()..], LABEL_SPACE, y))
    }

    function End(): nat { Below(portals, 0, PortalTop()) }

    function SecondX(): nat { x + columnWidth + COLUMN_GAP }

    function RightEdge(): int { x + columnWidth * Columns() + (Columns() - 1) * COLUMN_GAP + PAGE_MARGIN }
  }

  /** What every plan made for a layout satisfies. */
  ghost predicate Sensible(p: Plan) {
    && p.columnWidth <= p.fullWidth
    && (forall i :: 0 <= i < |p.fields| ==> p.fields[i].width <= p.columnWidth)
  }

  /** The position of every selected field and portal, before the block is shifted. */
  function Placement(p: Plan): (r: seq<Placed>)
    ensures forall i :: 0 <= i < |r| ==> r[i].y >= p.y
  {
    Column(p.fields[..p.Split()], p.x, p.y)
    + Column(p.fields[p.Split()..], p.SecondX(), p.y)
    + Portals(p.portals, p.x, p.PortalTop(), p.fullWidth)
  }

  predicate Hit(placed: seq<Placed>, obstacle: Rect, shift: int) {
    exists i :: 0 <= i < |placed| && Intersect(BoxAt(placed[i], shift), obstacle)
  }

  /** The lowest bottom of the obstacles that the shifted block meets. */
  function LowestHit(placed: seq<Placed>, obstacles: seq<Rect>, shift: int): (r: Option<int>)
    ensures r.None? <==> forall k :: 0 <= k < |obstacles| ==> !Hit(placed, obstacles[k], shift)
    ensures r.Some? ==> exists k :: 0 <= k < |obstacles| && Hit(placed, obstacles[k], shift) && Bottom(obstacles[k]) == r.value
    ensures r.Some? ==> forall k :: 0 <= k < |obstacles| && Hit(placed, obstacles[k], shift) ==> Bottom(obstacles[k]) <= r.value
  {
    if obstacles == [] then None
    else
      var n := |obstacles| - 1;
      var r := LowestHit(placed, obstacles[..n], shift);
      if !Hit(placed, obstacles[n], shift) then r
      else if r.None? then Some(Bottom(obstacles[n]))
      else Some(Max(r.value, Bottom(obstacles[n])))
  }

  /** How many obstacles still reach below the line `y`. */
  function Pending(obstacles: seq<Rect>, y: int): nat {
    if obstacles == [] then 0
    else Pending(obstacles[..|obstacles| - 1], y) + if Bottom(obstacles[|obstacles| - 1]) > y then 1 else 0
  }

  lemma {:induction false} PendingShrinks(obstacles: seq<Rect>, y: int, z: int, k: nat)
    requires y <= z && k < |obstacles| && y < Bottom(obstacles[k]) <= z
    ensures Pending(obstacles, z) < Pending(obstacles, y)
  {
    var n := |obstacles| - 1;
    if k < n { PendingShrinks(obstacles[..n], y, z, k); } else { PendingNeverGrows(obstacles[..n], y, z); }
  }

  lemma {:induction false} PendingNeverGrows(obstacles: seq<Rect>, y: int, z: int)
    requires y <= z
    ensures Pending(obstacles, z) <= Pending(obstacles, y)
  {
    if obstacles != [] { PendingNeverGrows(obstacles[..|obstacles| - 1], y, z); }
  }

  /** The shift that puts the top of the block a row gap below the line `bottom`. */
  function ShiftBelow(bottom: int, top: int): int { RoundUp(bottom + ROW_GAP - top) }

  /** Every jump leaves the obstacle it jumped over behind, so there are fewer still to pass. */
  lemma {:induction false} JumpPassesAnObstacle(placed: seq<Placed>, obstacles: seq<Rect>, top: int, shift: int)
    requires forall i :: 0 <= i < |placed| ==> placed[i].y >= top
    requires LowestHit(placed, obstacles, shift).Some?
    ensures var next := ShiftBelow(LowestHit(placed, obstacles, shift).value, top);
            next > shift && Pending(obstacles, top + next) < Pending(obstacles, top + shift)
  {
    hide LowestHit, Pending;
    var bottom := LowestHit(placed, obstacles, shift).value;
    var next := ShiftBelow(bottom, top);
    var k :| 0 <= k < |obstacles| && Hit(placed, obstacles[k], shift) && Bottom(obstacles[k]) == bottom;
    PendingShrinks(obstacles, top + shift, top + next, k);
  }

  /** The block jumps below whatever it meets until it meets nothing. */
  function Shift(placed: seq<Placed>, obstacles: seq<Rect>, top: int, shift: int): (r: int)
    requires forall i :: 0 <= i < |placed| ==> placed[i].y >= top
    ensures r >= shift
    ensures forall k :: 0 <= k < |obstacles| ==> !Hit(placed, obstacles[k], r)
    decreases Pending(obstacles, top + shift)
  {
    var hit := LowestHit(placed, obstacles, shift);
    if hit.None? then shift
    else
      JumpPassesAnObstacle(placed, obstacles, top, shift);
      Shift(placed, obstacles, top, ShiftBelow(hit.value, top))
  }

  function Selected(objects: seq<Object>, ids: Selection): (r: seq<Object>)
    ensures r != [] <==> AnyMovable(objects, ids)
  {
    if objects == [] then []
    else
      var n := |objects| - 1;
      assert forall i :: 0 <= i < n ==> objects[..n][i] == objects[i];
      Selected(objects[..n], ids) + if Movable(objects[n], ids) then [objects[n]] else []
  }

  predicate AnyMovable(objects: seq<Object>, ids: Selection) {
    exists i :: 0 <= i < |objects| && Movable(objects[i], ids)
  }

  function LeastX(objects: seq<Object>): int
    requires objects != []
  {
    if |objects| == 1 then objects[0].x else Min(LeastX(objects[..|objects| - 1]), objects[|objects| - 1].x)
  }

  function LeastY(objects: seq<Object>): int
    requires objects != []
  {
    if |objects| == 1 then objects[0].y else Min(LeastY(objects[..|objects| - 1]), objects[|objects| - 1].y)
  }

  function MakePlan(l: Layout, next: Layout, rank: Ranks, columns: int, ids: Selection): Plan
    requires AnyMovable(l.objects, ids)
  {
    var fields := SortByRank(Items(next.objects, ids, true), rank);
    var columnWidth := Widest(fields);
    var selected := Selected(l.objects, ids);
    var x := if ids.Some? then Max(0, SnapToGrid(LeastX(selected))) else PAGE_MARGIN;
    var y := if ids.Some? then Max(0, SnapToGrid(LeastY(selected))) else PAGE_MARGIN;
    Plan(fields, Items(next.objects, ids, false), x, y, columnWidth,
         columns == 2 && l.canvas.width >= PAGE_MARGIN * 2 + columnWidth * 2 + COLUMN_GAP,
         Max(columnWidth, l.canvas.width - x - PAGE_MARGIN))
  }

  function Obstacles(objects: seq<Object>, ids: Selection): (r: seq<Rect>)
    ensures forall i :: 0 <= i < |objects| && !Included(objects[i], ids) ==> BoxOf(objects[i]) in r
  {
    if objects == [] then []
    else
      var n := |objects| - 1;
      Obstacles(objects[..n], ids) + if Included(objects[n], ids) then [] else [BoxOf(objects[n])]
  }

  /** The last position recorded for an id. */
  function Find(placed: seq<Placed>, id: string): (r: Option<Placed>)
    ensures r.None? <==> forall i :: 0 <= i < |placed| ==> placed[i].id != id
    ensures r.Some? ==> r.value in placed && r.value.id == id
  {
    if placed == [] then None
    else if placed[|placed| - 1].id == id then Some(placed[|placed| - 1])
    else Find(placed[..|placed| - 1], id)
  }

  function Moved(o: Object, placed: seq<Placed>, shift: nat): Object {
    match Find(placed, o.id)
    case None => o
    case Some(p) => o.(x := p.x, y := p.y + shift, width := p.width)
  }

  function MoveAll(objects: seq<Object>, placed: seq<Placed>, shift: nat): seq<Object> {
    seq(|objects|, i requires 0 <= i < |objects| => Moved(objects[i], placed, shift))
  }

  function ShiftFor(p: Plan, objects: seq<Object>, ids: Selection): nat
  {
    if ids.None? then 0
    else
      Shift(Placement(p), Obstacles(objects, ids), p.y, 0)
  }

  function Arrange(l: Layout, shapes: Shapes, rank: Ranks, columns: int, ids: Selection): Layout {
    if !AnyMovable(l.objects, ids) then l
    else
      var next := StandardizeFields(l, shapes, ids);
      var p := MakePlan(l, next, rank, columns, ids);
      var shift := ShiftFor(p, next.objects, ids);
      Layout(Canvas(Max(next.canvas.width, p.RightEdge()), Max(next.canvas.height, p.End() + shift + PAGE_MARGIN)),
             MoveAll(next.objects, Placement(p), shift))
  }

  // ---- The arranged boxes do not meet ----

  lemma {:induction false} BelowGrows(items: seq<Item>, space: nat, y: nat, i: nat, j: nat)
    requires i <= j <= |items|
    ensures Below(items[..i], space, y) <= Below(items[..j], space, y)
    ensures i < j ==> Below(items[..i], space, y) + items[i].height + space + ROW_GAP <= Below(items[..j], space, y)
    decreases j
  {
    if i < j {
      assert items[..j][..j - 1] == items[..j - 1];
      BelowGrows(items, space, y, i, j - 1);
    }
  }

  lemma {:induction false} ColumnIsApart(items: seq<Item>, x: nat, y: nat, i: nat, j: nat)
    requires i < j < |items|
    ensures var c := Column(items, x, y);
            c[i].y + c[i].height + LABEL_SPACE + ROW_GAP <= c[j].y
    ensures var c := Column(items, x, y);
            c[j].y + c[j].height + LABEL_SPACE <= Below(items, LABEL_SPACE, y)
  {
    BelowGrows(items, LABEL_SPACE, y, i, j);
    ColumnEnds(items, x, y, j);
  }

  lemma {:induction false} ColumnEnds(items: seq<Item>, x: nat, y: nat, j: nat)
    requires j < |items|
    ensures var c := Column(items, x, y);
            c[j].y + c[j].height + LABEL_SPACE <= Below(items, LABEL_SPACE, y)
  {
    assert items[..|items|] == items;
    BelowGrows(items, LABEL_SPACE, y, j, |items|);
  }

  lemma {:induction false} PortalsEnd(items: seq<Item>, x: nat, y: nat, width: Positive, j: nat)
    requires j < |items|
    ensures var c := Portals(items, x, y, width);
            y <= c[j].y && c[j].y + c[j].height <= Below(items, 0, y)
  {
    assert items[..|items|] == items;
    BelowGrows(items, 0, y, j, |items|);
  }

  /** In a placed block no two boxes meet, label space included. */
  lemma {:induction false} BlockIsApart(p: Plan, s: nat, i: nat, j: nat)
    requires Sensible(p) && i < j < |Placement(p)|
    ensures !Intersect(BoxAt(Placement(p)[i], s), BoxAt(Placement(p)[j], s))
  {
    hide Below, Column, Portals;
    var n, f := p.Split(), |p.fields|;
    var first, second := p.fields[..n], p.fields[n..];
    if j < n {
      ColumnIsApart(first, p.x, p.y, i, j);
    } else if i < n && j < f {
      assert Placement(p)[i].width <= p.columnWidth;
    } else if i < n {
      ColumnEnds(first, p.x, p.y, i);
      PortalsEnd(p.portals, p.x, p.PortalTop(), p.fullWidth, j - f);
    } else if j < f {
      ColumnIsApart(second, p.SecondX(), p.y, i - n, j - n);
    } else if i < f {
      ColumnEnds(second, p.SecondX(), p.y, i - n);
      PortalsEnd(p.portals, p.x, p.PortalTop(), p.fullWidth, j - f);
    } else {
      BelowGrows(p.portals, 0, p.PortalTop(), i - f, j - f);
    }
  }

  /** Every box of a placed block lies between the block's corner and the page it asks for. */
  lemma {:induction false} BlockIsInside(p: Plan, s: nat, i: nat)
    requires Sensible(p) && i < |Placement(p)|
    ensures var b := BoxAt(Placement(p)[i], s);
            p.x <= b.x && p.y + s <= b.y && Bottom(b) <= p.End() + s
            && (b.x + b.width + PAGE_MARGIN <= p.RightEdge() || b.x + b.width == p.x + p.fullWidth)
  {
    hide Below, Column, Portals;
    var n, f := p.Split(), |p.fields|;
    if i < n {
      ColumnEnds(p.fields[..n], p.x, p.y, i);
    } else if i < f {
      ColumnEnds(p.fields[n..], p.SecondX(), p.y, i - n);
      assert p.twoColumns;
    } else {
      PortalsEnd(p.portals, p.x, p.PortalTop(), p.fullWidth, i - f);
    }
  }

  // ---- Every selected object gets one place ----

  lemma {:induction false} ItemsAreThose(objects: seq<Object>, ids: Selection, fields: bool)
    ensures forall i :: 0 <= i < |objects| && Wanted(objects[i], ids, fields) ==>
              ItemOf(objects[i]) in Items(objects, ids, fields)
    ensures forall item :: item in Items(objects, ids, fields) ==>
              exists i :: 0 <= i < |objects| && Wanted(objects[i], ids, fields) && ItemOf(objects[i]) == item
  {
    hide Wanted, ItemOf;
    if objects != [] {
      var n := |objects| - 1;
      var init := objects[..n];
      ItemsAreThose(init, ids, fields);
      assert forall i :: 0 <= i < n ==> init[i] == objects[i];
      forall item | item in Items(objects, ids, fields)
        ensures exists i :: 0 <= i < |objects| && Wanted(objects[i], ids, fields) && ItemOf(objects[i]) == item
      {
        if item in Items(init, ids, fields) {
          var i :| 0 <= i < n && Wanted(init[i], ids, fields) && ItemOf(init[i]) == item;
          assert Wanted(objects[i], ids, fields) && ItemOf(objects[i]) == item;
        } else {
          assert Wanted(objects[n], ids, fields) && ItemOf(objects[n]) == item;
        }
      }
    }
  }

  // ---- Ranking ----

  ghost predicate Ranked(items: seq<Item>, rank: Ranks) {
    forall i, j :: 0 <= i < j < |items| ==> rank(items[i].name) <= rank(items[j].name)
  }

  /** The items of one rank, in their order. */
  function OfRank(items: seq<Item>, rank: Ranks, k: nat): seq<Item> {
    if items == [] then []
    else
      var last := items[|items| - 1];
      OfRank(items[..|items| - 1], rank, k) + if rank(last.name) == k then [last] else []
  }

  lemma {:induction false} InsertAdds(items: seq<Item>, item: Item, rank: Ranks)
    ensures multiset(Insert(items, item, rank)) == multiset(items) + multiset{item}
  {
    if items == [] || rank(items[|items| - 1].name) <= rank(item.name) {
    } else {
      var init, last := items[..|items| - 1], items[|items| - 1];
      assert items == init + [last];
      InsertAdds(init, item, rank);
    }
  }

  lemma {:induction false} InsertKeeps(items: seq<Item>, item: Item, rank: Ranks)
    requires Ranked(items, rank)
    ensures Ranked(Insert(items, item, rank), rank)
    ensures multiset(Insert(items, item, rank)) == multiset(items) + multiset{item}
  {
    InsertAdds(items, item, rank);
    if items == [] || rank(items[|items| - 1].name) <= rank(item.name) {
    } else {
      var init, last := items[..|items| - 1], items[|items| - 1];
      InsertKeeps(init, item, rank);
      var r := Insert(init, item, rank);
      forall i | 0 <= i < |r| ensures rank(r[i].name) <= rank(last.name) {
        assert r[i] in multiset(r);
        assert r[i] in init || r[i] == item;
      }
    }
  }

  lemma {:induction false} InsertIsStable(items: seq<Item>, item: Item, rank: Ranks, k: nat)
    requires Ranked(items, rank)
    ensures OfRank(Insert(items, item, rank), rank, k) == OfRank(items + [item], rank, k)
  {
    assert (items + [item])[..|items|] == items;
    if items == [] || rank(items[|items| - 1].name) <= rank(item.name) {
    } else {
      var last := items[|items| - 1];
      var init := items[..|items| - 1];
      InsertIsStable(init, item, rank, k);
      assert (init + [item])[..|init|] == init;
      var r := Insert(init, item, rank);
      assert (r + [last])[..|r|] == r;
    }
  }

  /** Sorting keeps every item, ranks them, and leaves items of the same rank in their order. */
  lemma {:induction false} SortingIsStable(items: seq<Item>, rank: Ranks, k: nat)
    ensures var r := SortByRank(items, rank);
            Ranked(r, rank) && multiset(r) == multiset(items) && OfRank(r, rank, k) == OfRank(items, rank, k)
  {
    if items != [] {
      var last := items[|items| - 1];
      var init := items[..|items| - 1];
      SortingIsStable(init, rank, k);
      var r := SortByRank(init, rank);
      InsertKeeps(r, last, rank);
      InsertIsStable(r, last, rank, k);
      assert items == init + [last];
      assert (r + [last])[..|r|] == r;
    }
  }

  lemma {:induction false} SortHolds(items: seq<Item>, rank: Ranks, item: Item)
    ensures item in SortByRank(items, rank) <==> item in items
  {
    SortingIsStable(items, rank, 0);
    assert item in multiset(items) <==> item in multiset(SortByRank(items, rank));
  }

  lemma {:induction false} WidestIsWidest(items: seq<Item>, i: nat)
    requires i < |items|
    ensures items[i].width <= Widest(items)
  {
    if i < |items| - 1 { WidestIsWidest(items[..|items| - 1], i); }
  }

  lemma {:induction false} PlanIsSensible(l: Layout, next: Layout, rank: Ranks, columns: int, ids: Selection)
    requires AnyMovable(l.objects, ids)
    ensures Sensible(MakePlan(l, next, rank, columns, ids))
  {
    var p := MakePlan(l, next, rank, columns, ids);
    forall i | 0 <= i < |p.fields| ensures p.fields[i].width <= p.columnWidth { WidestIsWidest(p.fields, i); }
  }

  // ---- The arranged layout ----

  function PlanFor(l: Layout, shapes: Shapes, rank: Ranks, columns: int, ids: Selection): Plan
    requires AnyMovable(l.objects, ids)
  {
    MakePlan(l, StandardizeFields(l, shapes, ids), rank, columns, ids)
  }

  /** The `k`th place is the place of object `o`. */
  ghost predicate PlaceOf(placed: seq<Placed>, k: int, o: Object) {
    0 <= k < |placed| && placed[k].id == o.id && placed[k].isField == o.kind.Field? && placed[k].height == o.height
    && (o.kind.Field? ==> placed[k].width == o.width)
  }

  lemma PlacesForAll(p: Plan)
    ensures |Placement(p)| == |p.fields| + |p.portals|
  {
  }

  lemma {:induction false} PlacesFollowItems(p: Plan, k: nat)
    requires k < |Placement(p)|
    ensures |Placement(p)| == |p.fields| + |p.portals|
    ensures var place := Placement(p)[k];
            if k < |p.fields| then
              place.isField && place.id == p.fields[k].id && place.height == p.fields[k].height && place.width == p.fields[k].width
            else
              !place.isField && place.id == p.portals[k - |p.fields|].id && place.height == p.portals[k - |p.fields|].height
  {
    hide Below;
  }

  /** Every place belongs to a selected object of the layout. */
  lemma {:induction false} PlacesAreForObjects(objects: seq<Object>, rank: Ranks, ids: Selection, p: Plan, k: nat) returns (i: nat)
    requires p.fields == SortByRank(Items(objects, ids, true), rank) && p.portals == Items(objects, ids, false)
    requires k < |Placement(p)|
    ensures i < |objects| && Movable(objects[i], ids) && PlaceOf(Placement(p), k, objects[i])
  {
    hide Items, SortByRank, Placement;
    PlacesFollowItems(p, k);
    if k < |p.fields| {
      SortHolds(Items(objects, ids, true), rank, p.fields[k]);
      ItemsAreThose(objects, ids, true);
      i :| 0 <= i < |objects| && Wanted(objects[i], ids, true) && ItemOf(objects[i]) == p.fields[k];
    } else {
      ItemsAreThose(objects, ids, false);
      assert p.portals[k - |p.fields|] in p.portals;
      i :| 0 <= i < |objects| && Wanted(objects[i], ids, false) && ItemOf(objects[i]) == p.portals[k - |p.fields|];
    }
  }

  /** Every selected object has a place. */
  lemma {:induction false} ObjectsHavePlaces(objects: seq<Object>, rank: Ranks, ids: Selection, p: Plan, i: nat) returns (k: nat)
    requires p.fields == SortByRank(Items(objects, ids, true), rank) && p.portals == Items(objects, ids, false)
    requires i < |objects| && Movable(objects[i], ids)
    ensures PlaceOf(Placement(p), k, objects[i])
  {
    hide Items, SortByRank, Placement;
    var item := ItemOf(objects[i]);
    PlacesForAll(p);
    if objects[i].kind.Field? {
      SortHolds(Items(objects, ids, true), rank, item);
      ItemsAreThose(objects, ids, true);
      assert Wanted(objects[i], ids, true);
      k :| 0 <= k < |p.fields| && p.fields[k] == item;
    } else {
      ItemsAreThose(objects, ids, false);
      assert Wanted(objects[i], ids, false);
      var j :| 0 <= j < |p.portals| && p.portals[j] == item;
      k := |p.fields| + j;
    }
    PlacesFollowItems(p, k);
  }

  /** With distinct ids, an object finds a place exactly when it is selected, and the place is its own. */
  lemma {:induction false} FindsItsPlace(objects: seq<Object>, rank: Ranks, ids: Selection, p: Plan, i: nat) returns (k: nat)
    requires DistinctIds(objects) && i < |objects|
    requires p.fields == SortByRank(Items(objects, ids, true), rank) && p.portals == Items(objects, ids, false)
    ensures Find(Placement(p), objects[i].id).Some? <==> Movable(objects[i], ids)
    ensures Movable(objects[i], ids) ==>
              PlaceOf(Placement(p), k, objects[i]) && Find(Placement(p), objects[i].id) == Some(Placement(p)[k])
  {
    hide Items, SortByRank, Placement, Movable;
    var placed := Placement(p);
    var found := Find(placed, objects[i].id);
    if Movable(objects[i], ids) {
      var h := ObjectsHavePlaces(objects, rank, ids, p, i);
    }
    if found.Some? {
      k :| 0 <= k < |placed| && placed[k] == found.value;
      var j := PlacesAreForObjects(objects, rank, ids, p, k);
      assert j == i;
    } else {
      k := 0;
    }
  }

  /** Selected objects end up on their shifted place; all others are as they were. */
  lemma {:induction false} EndsUpOnItsPlace(l: Layout, shapes: Shapes, rank: Ranks, columns: int, ids: Selection, i: nat) returns (k: nat)
    requires DistinctIds(l.objects) && AnyMovable(l.objects, ids) && i < |l.objects|
    ensures var r := Arrange(l, shapes, rank, columns, ids);
            var next := StandardizeFields(l, shapes, ids);
            var p := PlanFor(l, shapes, rank, columns, ids);
            var placed := Placement(p);
            |r.objects| == |l.objects|
            && (!Movable(l.objects[i], ids) ==> r.objects[i] == l.objects[i])
            && (Movable(l.objects[i], ids) ==>
                  PlaceOf(placed, k, next.objects[i])
                  && BoxOf(r.objects[i]) == BoxAt(placed[k], ShiftFor(p, next.objects, ids))
                  && r.objects[i] == next.objects[i].(x := r.objects[i].x, y := r.objects[i].y, width := r.objects[i].width))
  {
    hide Placement, Find, Below, ShiftFor, Standardized, Items, SortByRank, Grown;
    var next := StandardizeFields(l, shapes, ids);
    var p := PlanFor(l, shapes, rank, columns, ids);
    NextKeeps(l, shapes, ids);
    k := FindsItsPlace(next.objects, rank, ids, p, i);
  }

  lemma NextKeeps(l: Layout, shapes: Shapes, ids: Selection)
    ensures var next := StandardizeFields(l, shapes, ids);
            |next.objects| == |l.objects|
            && (DistinctIds(l.objects) ==> DistinctIds(next.objects))
            && (forall i :: 0 <= i < |l.objects| ==>
                  next.objects[i].id == l.objects[i].id
                  && Movable(next.objects[i], ids) == Movable(l.objects[i], ids)
                  && (!Movable(l.objects[i], ids) ==> next.objects[i] == l.objects[i]))
  {
  }

  lemma FieldsStayFields(l: Layout, shapes: Shapes, ids: Selection)
    ensures var next := StandardizeFields(l, shapes, ids);
            |next.objects| == |l.objects|
            && (forall i :: 0 <= i < |l.objects| ==>
                  next.objects[i].kind.Field? == l.objects[i].kind.Field?
                  && (l.objects[i].kind.Field? ==> next.objects[i].kind.name == l.objects[i].kind.name))
  {
  }

  /** The arranged fields and portals do not meet, the fields' label space included. */
  lemma {:induction false} ArrangedBoxesAreApart(
    l: Layout, shapes: Shapes, rank: Ranks, columns: int, ids: Selection, i: nat, j: nat)
    requires DistinctIds(l.objects) && i < j < |l.objects|
    requires Movable(l.objects[i], ids) && Movable(l.objects[j], ids)
    ensures var r := Arrange(l, shapes, rank, columns, ids);
            |r.objects| == |l.objects| && !Intersect(BoxOf(r.objects[i]), BoxOf(r.objects[j]))
  {
    hide Placement, ShiftFor, MakePlan, Arrange, Standardized, Movable;
    var next := StandardizeFields(l, shapes, ids);
    var p := PlanFor(l, shapes, rank, columns, ids);
    var h := EndsUpOnItsPlace(l, shapes, rank, columns, ids, i);
    var k := EndsUpOnItsPlace(l, shapes, rank, columns, ids, j);
    PlanIsSensible(l, next, rank, columns, ids);
    NextKeeps(l, shapes, ids);
    assert h != k;
    BlockIsApart(p, ShiftFor(p, next.objects, ids), if h < k then h else k, if h < k then k else h);
  }

  /** With ids given, no arranged box meets an object that was not selected, and that object is untouched. */
  lemma {:induction false} ArrangedBoxesAreClear(
    l: Layout, shapes: Shapes, rank: Ranks, columns: int, ids: Selection, i: nat, j: nat)
    requires DistinctIds(l.objects) && i < |l.objects| && j < |l.objects|
    requires Movable(l.objects[i], ids) && !Included(l.objects[j], ids)
    ensures var r := Arrange(l, shapes, rank, columns, ids);
            |r.objects| == |l.objects| && r.objects[j] == l.objects[j] && !Intersect(BoxOf(r.objects[i]), BoxOf(r.objects[j]))
  {
    hide Placement, MakePlan, Arrange, Standardized, Obstacles, StandardizeFields, Shift;
    var next := StandardizeFields(l, shapes, ids);
    var p := PlanFor(l, shapes, rank, columns, ids);
    var h := EndsUpOnItsPlace(l, shapes, rank, columns, ids, i);
    var k := EndsUpOnItsPlace(l, shapes, rank, columns, ids, j);
    NextKeeps(l, shapes, ids);
    var obstacles := Obstacles(next.objects, ids);
    var shift := ShiftFor(p, next.objects, ids);
    assert BoxOf(next.objects[j]) in obstacles;
    var m :| 0 <= m < |obstacles| && obstacles[m] == BoxOf(next.objects[j]);
    assert !Hit(Placement(p), obstacles[m], shift);
    assert !Intersect(BoxAt(Placement(p)[h], shift), obstacles[m]);
  }

  lemma {:induction false} GrownOnlyGrows(canvas: Canvas, objects: seq<Object>, ids: Selection)
    ensures Grown(canvas, objects, ids).width >= canvas.width && Grown(canvas, objects, ids).height >= canvas.height
  {
    if objects != [] { GrownOnlyGrows(canvas, objects[..|objects| - 1], ids); }
  }

  /** Every arranged box lies on the returned canvas, which never shrinks. */
  lemma {:induction false} ArrangedBoxesAreOnTheCanvas(
    l: Layout, shapes: Shapes, rank: Ranks, columns: int, ids: Selection, i: nat)
    requires DistinctIds(l.objects) && i < |l.objects| && Movable(l.objects[i], ids)
    ensures var r := Arrange(l, shapes, rank, columns, ids);
            && |r.objects| == |l.objects|
            && r.canvas.width >= l.canvas.width && r.canvas.height >= l.canvas.height
            && r.objects[i].x + r.objects[i].width <= r.canvas.width
            && Bottom(BoxOf(r.objects[i])) + PAGE_MARGIN <= r.canvas.height
  {
    hide Placement, ShiftFor, Standardized, Grown, Selected, Items, SortByRank, Below, Widest;
    var next := StandardizeFields(l, shapes, ids);
    var p := PlanFor(l, shapes, rank, columns, ids);
    var k := EndsUpOnItsPlace(l, shapes, rank, columns, ids, i);
    PlanIsSensible(l, next, rank, columns, ids);
    GrownOnlyGrows(l.canvas, next.objects, ids);
    PlacesForAll(p);
    BlockIsInside(p, ShiftFor(p, next.objects, ids), k);
  }

  /** Only geometry and the label position change, in place; fields get their standard size, portals keep their height. */
  lemma {:induction false} ArrangingKeepsTheRest(
    l: Layout, shapes: Shapes, rank: Ranks, columns: int, ids: Selection, i: nat)
    requires DistinctIds(l.objects) && i < |l.objects|
    ensures var r := Arrange(l, shapes, rank, columns, ids);
            |r.objects| == |l.objects|
            && var o, n := l.objects[i], r.objects[i];
            n.id == o.id && n.data == o.data
            && (!Movable(o, ids) ==> n == o)
            && (o.kind.Portal? ==> n.kind == o.kind && n.height == o.height)
            && (o.kind.Field? && Included(o, ids) ==>
                  n.kind == o.kind.(labelAt := Top)
                  && Size(n.width, n.height) == StandardSize(shapes(o.kind.name, o.kind.displayType)))
  {
    if AnyMovable(l.objects, ids) {
      hide Placement, ShiftFor, Grown, Selected, Items, SortByRank, Below, Widest, Arrange, MakePlan;
      var k := EndsUpOnItsPlace(l, shapes, rank, columns, ids, i);
      var next := StandardizeFields(l, shapes, ids);
      NextKeeps(l, shapes, ids);
      if Movable(l.objects[i], ids) {
        assert BoxOf(Arrange(l, shapes, rank, columns, ids).objects[i]).width
            == Placement(PlanFor(l, shapes, rank, columns, ids))[k].width;
      }
    }
  }

  lemma {:induction false} FieldPlaceIsItsItem(objects: seq<Object>, rank: Ranks, ids: Selection, p: Plan, i: nat, k: nat)
    requires DistinctIds(objects) && i < |objects| && Resizes(objects[i], ids)
    requires p.fields == SortByRank(Items(objects, ids, true), rank)
    requires PlaceOf(Placement(p), k, objects[i])
    ensures k < |p.fields| && p.fields[k] == ItemOf(objects[i])
  {
    hide Items, SortByRank, Placement;
    PlacesFollowItems(p, k);
    SortHolds(Items(objects, ids, true), rank, p.fields[k]);
    ItemsAreThose(objects, ids, true);
    assert p.fields[k] in Items(objects, ids, true);
    var j :| 0 <= j < |objects| && Wanted(objects[j], ids, true) && ItemOf(objects[j]) == p.fields[k];
    assert objects[j].id == objects[i].id;
  }

  lemma {:induction false} BlockReadsInOrder(p: Plan, i: nat, j: nat)
    requires Sensible(p) && i < j < |p.fields|
    ensures var a, b := Placement(p)[i], Placement(p)[j];
            (a.x == b.x && a.y + a.height + LABEL_SPACE + ROW_GAP <= b.y) || a.x + a.width < b.x
  {
    hide Below, Column, Portals;
    var n := p.Split();
    if j < n {
      ColumnIsApart(p.fields[..n], p.x, p.y, i, j);
    } else if i >= n {
      ColumnIsApart(p.fields[n..], p.SecondX(), p.y, i - n, j - n);
    } else {
      assert Placement(p)[i].width <= p.columnWidth;
    }
  }

  /** A field that ranks before another stands above it in the same column, or in the column to its left. */
  lemma {:induction false} FormReadsInOrder(
    l: Layout, shapes: Shapes, rank: Ranks, columns: int, ids: Selection, i: nat, j: nat)
    requires DistinctIds(l.objects) && i < |l.objects| && j < |l.objects|
    requires Resizes(l.objects[i], ids) && Resizes(l.objects[j], ids)
    requires rank(l.objects[i].kind.name) < rank(l.objects[j].kind.name)
    ensures var r := Arrange(l, shapes, rank, columns, ids);
            |r.objects| == |l.objects|
            && var a, b := r.objects[i], r.objects[j];
            (a.x == b.x && a.y + a.height + LABEL_SPACE + ROW_GAP <= b.y) || a.x + a.width < b.x
  {
    hide Placement, ShiftFor, MakePlan, Arrange, Standardized, Obstacles, Shift, SortByRank, Items, Below;
    var next := StandardizeFields(l, shapes, ids);
    var p := PlanFor(l, shapes, rank, columns, ids);
    var h := EndsUpOnItsPlace(l, shapes, rank, columns, ids, i);
    var k := EndsUpOnItsPlace(l, shapes, rank, columns, ids, j);
    NextKeeps(l, shapes, ids);
    FieldsStayFields(l, shapes, ids);
    PlanIsRanked(l, next, rank, columns, ids);
    FieldPlaceIsItsItem(next.objects, rank, ids, p, i, h);
    FieldPlaceIsItsItem(next.objects, rank, ids, p, j, k);
    PlanIsSensible(l, next, rank, columns, ids);
    BlockReadsInOrder(p, h, k);
    var s := ShiftFor(p, next.objects, ids);
    var r := Arrange(l, shapes, rank, columns, ids);
    assert BoxOf(r.objects[i]) == BoxAt(Placement(p)[h], s) && BoxOf(r.objects[j]) == BoxAt(Placement(p)[k], s);
  }

  lemma {:induction false} PlanIsRanked(l: Layout, next: Layout, rank: Ranks, columns: int, ids: Selection)
    requires AnyMovable(l.objects, ids)
    ensures var p := MakePlan(l, next, rank, columns, ids);
            p.fields == SortByRank(Items(next.objects, ids, true), rank) && Ranked(p.fields, rank)
  {
    hide Items, SortByRank, Below;
    SortingIsStable(Items(next.objects, ids, true), rank, 0);
  }

  // ---- Arranging a whole layout twice ----

  lemma StandardSizeStays(o: Object, shapes: Shapes, canvas: Canvas)
    requires o.kind.Field? && o.kind.labelAt == Top
    requires Size(o.width, o.height) == StandardSize(shapes(o.kind.name, o.kind.displayType))
    requires o.x % GRID == 0 && o.y % GRID == 0
    requires o.x + o.width <= canvas.width && o.y + o.height + LABEL_SPACE <= canvas.height
    ensures Standardized(o, shapes, canvas) == o
  {
    assert o.x <= (canvas.width - o.width) / GRID * GRID;
    assert o.y <= (canvas.height - o.height - LABEL_SPACE) / GRID * GRID;
  }

  lemma {:induction false} GrownStays(canvas: Canvas, objects: seq<Object>, ids: Selection)
    requires forall i :: 0 <= i < |objects| && Resizes(objects[i], ids) ==>
               objects[i].x + objects[i].width <= canvas.width && objects[i].y + objects[i].height + LABEL_SPACE <= canvas.height
    ensures Grown(canvas, objects, ids) == canvas
  {
    if objects != [] {
      var init := objects[..|objects| - 1];
      assert forall i :: 0 <= i < |init| ==> init[i] == objects[i];
      GrownStays(canvas, init, ids);
    }
  }

  /** Standardizing widens a canvas at most to the widest standard field. */
  lemma {:induction false} GrownStaysNarrow(canvas: Canvas, objects: seq<Object>, ids: Selection)
    requires forall i :: 0 <= i < |objects| && Resizes(objects[i], ids) ==>
               objects[i].x + objects[i].width <= Max(TEXT_WIDTH, canvas.width)
    ensures Grown(canvas, objects, ids).width <= Max(TEXT_WIDTH, canvas.width)
  {
    if objects != [] {
      var init := objects[..|objects| - 1];
      assert forall i :: 0 <= i < |init| ==> init[i] == objects[i];
      GrownStaysNarrow(canvas, init, ids);
    }
  }

  lemma StandardFieldsFit(o: Object, shapes: Shapes, canvas: Canvas)
    requires o.kind.Field?
    ensures var n := Standardized(o, shapes, canvas);
            n.width <= TEXT_WIDTH && n.x + n.width <= Max(TEXT_WIDTH, canvas.width) && n.x % GRID == 0 && n.y % GRID == 0
  {
  }

  lemma {:induction false} WidestAtMost(items: seq<Item>)
    requires forall i :: 0 <= i < |items| ==> items[i].width <= TEXT_WIDTH
    ensures Widest(items) == TEXT_WIDTH
  {
    if items != [] { WidestAtMost(items[..|items| - 1]); }
  }

  /** The column is always as wide as a text field. */
  lemma {:induction false} ColumnsAreTextWide(l: Layout, shapes: Shapes, rank: Ranks, columns: int, ids: Selection)
    requires AnyMovable(l.objects, ids)
    ensures PlanFor(l, shapes, rank, columns, ids).columnWidth == TEXT_WIDTH
  {
    hide Items, SortByRank, Standardized, Grown, Widest, Selected, AnyMovable;
    var next := StandardizeFields(l, shapes, ids);
    var p := PlanFor(l, shapes, rank, columns, ids);
    assert p.fields == SortByRank(Items(next.objects, ids, true), rank) && p.columnWidth == Widest(p.fields);
    forall k | 0 <= k < |p.fields| ensures p.fields[k].width <= TEXT_WIDTH {
      assert p.fields[k] in p.fields;
      SortHolds(Items(next.objects, ids, true), rank, p.fields[k]);
      ItemsAreThose(next.objects, ids, true);
      var i :| 0 <= i < |next.objects| && Wanted(next.objects[i], ids, true) && ItemOf(next.objects[i]) == p.fields[k];
      FieldsStayFields(l, shapes, ids);
      StandardFieldsFit(l.objects[i], shapes, l.canvas);
    }
    WidestAtMost(p.fields);
  }

  lemma {:induction false} BelowIsOnGrid(items: seq<Item>, space: nat, y: nat)
    requires y % GRID == 0
    ensures Below(items, space, y) % GRID == 0
  {
    hide Room;
    if items != [] {
      var init, last := items[..|items| - 1], items[|items| - 1];
      BelowIsOnGrid(init, space, y);
      RoomIsOnGrid(last, space);
      GridAdds(Below(init, space, y), Room(last, space));
    }
  }

  lemma RoomIsOnGrid(item: Item, space: nat)
    ensures Room(item, space) % GRID == 0
  {
  }

  lemma GridAdds(a: nat, b: nat)
    requires a % GRID == 0 && b % GRID == 0
    ensures (a + b) % GRID == 0
  {
  }

  lemma {:induction false} PlacesAreOnGrid(p: Plan, k: nat)
    requires p.x % GRID == 0 && p.y % GRID == 0 && p.columnWidth % GRID == 0 && k < |Placement(p)|
    ensures Placement(p)[k].x % GRID == 0 && Placement(p)[k].y % GRID == 0
  {
    hide Below, Column, Portals;
    var n, f := p.Split(), |p.fields|;
    BelowIsOnGrid(p.fields[..n], LABEL_SPACE, p.y);
    BelowIsOnGrid(p.fields[n..], LABEL_SPACE, p.y);
    if k < n {
      BelowIsOnGrid(p.fields[..n][..k], LABEL_SPACE, p.y);
    } else if k < f {
      BelowIsOnGrid(p.fields[n..][..k - n], LABEL_SPACE, p.y);
    } else {
      BelowIsOnGrid(p.portals[..k - f], 0, p.PortalTop());
    }
  }

  lemma {:induction false} SameItems(a: seq<Object>, b: seq<Object>, ids: Selection, fields: bool)
    requires |a| == |b|
    requires forall i :: 0 <= i < |a| ==>
               Wanted(a[i], ids, fields) == Wanted(b[i], ids, fields)
               && (Wanted(a[i], ids, fields) ==> ItemOf(a[i]) == ItemOf(b[i]))
    ensures Items(a, ids, fields) == Items(b, ids, fields)
  {
    hide Wanted, ItemOf;
    if a != [] {
      var n := |a| - 1;
      assert forall i :: 0 <= i < n ==> a[..n][i] == a[i] && b[..n][i] == b[i];
      SameItems(a[..n], b[..n], ids, fields);
    }
  }

  /** An arranged layout already has standard fields inside its canvas. */
  lemma {:induction false} ArrangedIsStandard(l: Layout, shapes: Shapes, rank: Ranks, columns: int)
    requires DistinctIds(l.objects) && AnyMovable(l.objects, None)
    ensures var r := Arrange(l, shapes, rank, columns, None);
            StandardizeFields(r, shapes, None) == r
  {
    hide Placement, Standardized, Grown, Items, SortByRank, Below, Widest, Arrange, MakePlan, StandardSize;
    var r := Arrange(l, shapes, rank, columns, None);
    var p := PlanFor(l, shapes, rank, columns, None);
    assert |r.objects| == |l.objects| by { ArrangingKeepsTheRestOfAll(l, shapes, rank, columns, None); }
    forall i | 0 <= i < |r.objects| && r.objects[i].kind.Field?
      ensures Standardized(r.objects[i], shapes, r.canvas) == r.objects[i]
      ensures r.objects[i].x + r.objects[i].width <= r.canvas.width
      ensures r.objects[i].y + r.objects[i].height + LABEL_SPACE <= r.canvas.height
    {
      ArrangingKeepsTheRest(l, shapes, rank, columns, None, i);
      ArrangedBoxesAreOnTheCanvas(l, shapes, rank, columns, None, i);
      var k := EndsUpOnItsPlace(l, shapes, rank, columns, None, i);
      ColumnsAreTextWide(l, shapes, rank, columns, None);
      assert p.x == PAGE_MARGIN && p.y == PAGE_MARGIN by { PlanStartsAtTheMargin(l, shapes, rank, columns); }
      PlacesAreOnGrid(p, k);
      assert BoxOf(r.objects[i]) == BoxAt(Placement(p)[k], 0);
      StandardSizeStays(r.objects[i], shapes, r.canvas);
    }
    GrownStays(r.canvas, r.objects, None);
    assert StandardizeObjects(r.objects, shapes, r.canvas, None) == r.objects;
  }

  lemma ArrangingKeepsTheRestOfAll(l: Layout, shapes: Shapes, rank: Ranks, columns: int, ids: Selection)
    ensures |Arrange(l, shapes, rank, columns, ids).objects| == |l.objects|
  {
  }

  lemma PlanStartsAtTheMargin(l: Layout, shapes: Shapes, rank: Ranks, columns: int)
    requires AnyMovable(l.objects, None)
    ensures var p := PlanFor(l, shapes, rank, columns, None);
            p.x == PAGE_MARGIN && p.y == PAGE_MARGIN
  {
  }

  /** Arranging again reads the same items, so it makes the same plan. */
  lemma {:induction false} ArrangedHasTheSameItems(l: Layout, shapes: Shapes, rank: Ranks, columns: int, fields: bool)
    requires DistinctIds(l.objects) && AnyMovable(l.objects, None)
    ensures var r := Arrange(l, shapes, rank, columns, None);
            Items(r.objects, None, fields) == Items(StandardizeFields(l, shapes, None).objects, None, fields)
  {
    hide Placement, Standardized, Grown, Items, Arrange, MakePlan, PlanFor, ShiftFor, StandardizeFields;
    var r := Arrange(l, shapes, rank, columns, None);
    var next := StandardizeFields(l, shapes, None);
    ArrangingKeepsTheRestOfAll(l, shapes, rank, columns, None);
    NextKeeps(l, shapes, None);
    forall i | 0 <= i < |r.objects|
      ensures Wanted(r.objects[i], None, fields) == Wanted(next.objects[i], None, fields)
      ensures Wanted(r.objects[i], None, fields) ==> ItemOf(r.objects[i]) == ItemOf(next.objects[i])
    {
      var k := EndsUpOnItsPlace(l, shapes, rank, columns, None, i);
    }
    SameItems(r.objects, next.objects, None, fields);
  }

  lemma {:induction false} ArrangedHasTheSamePlan(l: Layout, shapes: Shapes, rank: Ranks, columns: int)
    requires DistinctIds(l.objects) && AnyMovable(l.objects, None)
    ensures var r := Arrange(l, shapes, rank, columns, None);
            AnyMovable(r.objects, None)
            && PlanFor(r, shapes, rank, columns, None) == PlanFor(l, shapes, rank, columns, None)
  {
    hide Placement, Standardized, Grown, Items, SortByRank, Below, Widest, StandardSize, Selected, StandardizeFields;
    var r := Arrange(l, shapes, rank, columns, None);
    var next := StandardizeFields(l, shapes, None);
    var p := PlanFor(l, shapes, rank, columns, None);
    ArrangedIsStandard(l, shapes, rank, columns);
    ArrangedHasTheSameItems(l, shapes, rank, columns, true);
    ArrangedHasTheSameItems(l, shapes, rank, columns, false);
    ColumnsAreTextWide(l, shapes, rank, columns, None);
    StandardizedIsNarrow(l, shapes, None);
    assert next.canvas.width <= Max(TEXT_WIDTH, l.canvas.width);
    assert r.canvas.width == Max(next.canvas.width, p.RightEdge());
    var i :| 0 <= i < |l.objects| && Movable(l.objects[i], None);
    NextKeeps(l, shapes, None);
    assert Movable(r.objects[i], None);
  }

  lemma {:induction false} StandardizedIsNarrow(l: Layout, shapes: Shapes, ids: Selection)
    ensures var next := StandardizeFields(l, shapes, ids);
            l.canvas.width <= next.canvas.width <= Max(TEXT_WIDTH, l.canvas.width)
  {
    hide Standardized, Grown, StandardSize;
    var next := StandardizeFields(l, shapes, ids);
    forall i | 0 <= i < |next.objects| && Resizes(next.objects[i], ids)
      ensures next.objects[i].x + next.objects[i].width <= Max(TEXT_WIDTH, l.canvas.width)
    {
      FieldsStayFields(l, shapes, ids);
      NextKeeps(l, shapes, ids);
      StandardFieldsFit(l.objects[i], shapes, l.canvas);
    }
    GrownStaysNarrow(l.canvas, next.objects, ids);
    GrownOnlyGrows(l.canvas, next.objects, ids);
  }

  lemma {:induction false} MovingTwiceIsMovingOnce(objects: seq<Object>, placed: seq<Placed>)
    ensures MoveAll(MoveAll(objects, placed, 0), placed, 0) == MoveAll(objects, placed, 0)
  {
    hide Find;
  }

  /** Arranging a whole layout twice is arranging it once. */
  lemma {:induction false} ArrangingTwiceIsArrangingOnce(l: Layout, shapes: Shapes, rank: Ranks, columns: int)
    requires DistinctIds(l.objects)
    ensures var r := Arrange(l, shapes, rank, columns, None);
            Arrange(r, shapes, rank, columns, None) == r
  {
    if AnyMovable(l.objects, None) {
      hide Placement, Standardized, Grown, Items, SortByRank, Below, Widest, StandardSize, Selected, StandardizeFields, Find,
           MakePlan, AnyMovable, MoveAll;
      var r := Arrange(l, shapes, rank, columns, None);
      var next := StandardizeFields(l, shapes, None);
      ArrangedIsStandard(l, shapes, rank, columns);
      ArrangedHasTheSamePlan(l, shapes, rank, columns);
      var placed := Placement(PlanFor(l, shapes, rank, columns, None));
      MovingTwiceIsMovingOnce(next.objects, placed);
    }
  }

  /** Bringing fields to their standard size twice is doing it once, for any selection. */
  lemma {:induction false} StandardizingTwiceIsStandardizingOnce(l: Layout, shapes: Shapes, ids: Selection)
    ensures var r := StandardizeFields(l, shapes, ids);
            StandardizeFields(r, shapes, ids) == r
  {
    hide Standardized, Grown, StandardSize;
    var r := StandardizeFields(l, shapes, ids);
    FieldsStayFields(l, shapes, ids);
    NextKeeps(l, shapes, ids);
    forall i | 0 <= i < |r.objects| && Resizes(r.objects[i], ids)
      ensures Standardized(r.objects[i], shapes, r.canvas) == r.objects[i]
      ensures r.objects[i].x + r.objects[i].width <= r.canvas.width
      ensures r.objects[i].y + r.objects[i].height + LABEL_SPACE <= r.canvas.height
    {
      GrownHolds(l.canvas, r.objects, ids, i);
      StandardizedIsStandard(l.objects[i], shapes, l.canvas);
      StandardSizeStays(r.objects[i], shapes, r.canvas);
    }
    GrownStays(r.canvas, r.objects, ids);
    assert StandardizeObjects(r.objects, shapes, r.canvas, ids) == r.objects;
  }

  lemma StandardizedIsStandard(o: Object, shapes: Shapes, canvas: Canvas)
    requires o.kind.Field?
    ensures var n := Standardized(o, shapes, canvas);
            n.kind == o.kind.(labelAt := Top) && n.x % GRID == 0 && n.y % GRID == 0
            && Size(n.width, n.height) == StandardSize(shapes(n.kind.name, n.kind.displayType))
  {
  }

  lemma {:induction false} GrownHolds(canvas: Canvas, objects: seq<Object>, ids: Selection, i: nat)
    requires i < |objects| && Resizes(objects[i], ids)
    ensures objects[i].x + objects[i].width <= Grown(canvas, objects, ids).width
    ensures objects[i].y + objects[i].height + LABEL_SPACE <= Grown(canvas, objects, ids).height
  {
    if i < |objects| - 1 { GrownHolds(canvas, objects[..|objects| - 1], ids, i); }
  }

  // ---- The engine's loops ----

  lemma {:induction false} BelowNext(items: seq<Item>, space: nat, y: nat, i: nat)
    requires i < |items|
    ensures Below(items[..i + 1], space, y) == Below(items[..i], space, y) + Room(items[i], space)
  {
    assert items[..i + 1][..i] == items[..i];
  }

  lemma {:induction false} ColumnNext(items: seq<Item>, x: nat, y: nat, i: nat)
    requires i < |items|
    ensures Column(items[..i + 1], x, y)
         == Column(items[..i], x, y) + [Placed(items[i].id, true, x, Below(items[..i], LABEL_SPACE, y), items[i].width, items[i].height)]
  {
    hide Below;
    assert items[..i + 1][..i] == items[..i];
    forall k | 0 <= k < i ensures items[..i + 1][..k] == items[..i][..k] {}
  }

  lemma {:induction false} PortalsNext(items: seq<Item>, x: nat, y: nat, width: Positive, i: nat)
    requires i < |items|
    ensures Portals(items[..i + 1], x, y, width)
         == Portals(items[..i], x, y, width) + [Placed(items[i].id, false, x, Below(items[..i], 0, y), width, items[i].height)]
  {
    hide Below;
    assert items[..i + 1][..i] == items[..i];
    forall k | 0 <= k < i ensures items[..i + 1][..k] == items[..i][..k] {}
  }

  /** The two running column bottoms: the fields before `split` go down the first column, the others down the second. */
  method PlaceFields(fields: seq<Item>, split: nat, x: nat, secondX: nat, y: nat) returns (placed: seq<Placed>, bottom: nat)
    requires split <= |fields|
    ensures placed == Column(fields[..split], x, y) + Column(fields[split..], secondX, y)
    ensures bottom == Max(Below(fields[..split], LABEL_SPACE, y), Below(fields[split..], LABEL_SPACE, y))
  {
    hide Below, Column;
    EmptyStack(x, y);
    EmptyStack(secondX, y);
    assert fields[..0] == [] && fields[split..split] == [];
    var bottom0, bottom1 := y, y;
    placed := [];
    ghost var left, right := [], [];
    for i := 0 to |fields|
      invariant placed == left + right
      invariant left == Column(fields[..Min(i, split)], x, y) && bottom0 == Below(fields[..Min(i, split)], LABEL_SPACE, y)
      invariant right == Column(fields[split..Max(i, split)], secondX, y)
      invariant bottom1 == Below(fields[split..Max(i, split)], LABEL_SPACE, y)
    {
      var o := fields[i];
      if i < split {
        BelowNext(fields, LABEL_SPACE, y, i);
        ColumnNext(fields, x, y, i);
        placed := placed + [Placed(o.id, true, x, bottom0, o.width, o.height)];
        left := left + [Placed(o.id, true, x, bottom0, o.width, o.height)];
        bottom0 := bottom0 + RoundUp(o.height + LABEL_SPACE + ROW_GAP);
      } else {
        BelowNext(fields[split..], LABEL_SPACE, y, i - split);
        ColumnNext(fields[split..], secondX, y, i - split);
        assert fields[split..][..i - split] == fields[split..i] && fields[split..][..i + 1 - split] == fields[split..i + 1];
        placed := placed + [Placed(o.id, true, secondX, bottom1, o.width, o.height)];
        right := right + [Placed(o.id, true, secondX, bottom1, o.width, o.height)];
        bottom1 := bottom1 + RoundUp(o.height + LABEL_SPACE + ROW_GAP);
      }
    }
    assert fields[split..|fields|] == fields[split..];
    bottom := Max(bottom0, bottom1);
  }

  lemma {:induction false} EmptyStack(x: nat, y: nat)
    ensures Below([], LABEL_SPACE, y) == y && Column([], x, y) == []
  {
  }

  /** Adds the portals below the fields, with the running portal position. */
  method PlaceBlock(p: Plan) returns (placed: seq<Placed>, end: nat)
    ensures placed == Placement(p) && end == p.End()
  {
    hide Below, Column, Portals;
    placed, end := PlaceFields(p.fields, p.Split(), p.x, p.SecondX(), p.y);
    ghost var columns := placed;
    NoPortals(p);
    for i := 0 to |p.portals|
      invariant placed == columns + Portals(p.portals[..i], p.x, p.PortalTop(), p.fullWidth)
      invariant end == Below(p.portals[..i], 0, p.PortalTop())
    {
      var o := p.portals[i];
      BelowNext(p.portals, 0, p.PortalTop(), i);
      PortalsNext(p.portals, p.x, p.PortalTop(), p.fullWidth, i);
      placed := placed + [Placed(o.id, false, p.x, end, p.fullWidth, o.height)];
      end := end + RoundUp(o.height + ROW_GAP);
    }
    assert p.portals[..|p.portals|] == p.portals;
  }

  lemma NoPortals(p: Plan)
    ensures Below([], 0, p.PortalTop()) == p.PortalTop() && Portals([], p.x, p.PortalTop(), p.fullWidth) == []
  {
  }

  /** Moves the block down until it meets no obstacle. Each turn leaves an obstacle behind. */
  method ClearTheWay(placed: seq<Placed>, obstacles: seq<Rect>, top: nat) returns (shift: nat)
    requires forall i :: 0 <= i < |placed| ==> placed[i].y >= top
    ensures shift == Shift(placed, obstacles, top, 0)
    ensures forall k :: 0 <= k < |obstacles| ==> !Hit(placed, obstacles[k], shift)
    ensures shift == 0 <==> forall k :: 0 <= k < |obstacles| ==> !Hit(placed, obstacles[k], 0)
  {
    hide LowestHit, Hit, Pending, ShiftBelow;
    shift := 0;
    var hit := LowestHit(placed, obstacles, shift);
    while hit.Some?
      invariant hit == LowestHit(placed, obstacles, shift)
      invariant shift > 0 ==> LowestHit(placed, obstacles, 0).Some?
      invariant Shift(placed, obstacles, top, shift) == Shift(placed, obstacles, top, 0)
      decreases Pending(obstacles, top + shift)
    {
      JumpPassesAnObstacle(placed, obstacles, top, shift);
      shift := ShiftBelow(hit.value, top);
      hit := LowestHit(placed, obstacles, shift);
    }
  }

  method ArrangeStandardForm(l: Layout, shapes: Shapes, rank: Ranks, columns: int, ids: Selection) returns (r: Layout)
    requires columns == 1 || columns == 2
    requires DistinctIds(l.objects)
    ensures r == Arrange(l, shapes, rank, columns, ids)
  {
    hide Placement, StandardizeFields, MakePlan, MoveAll, Shift, Obstacles, LowestHit, Hit, AnyMovable;
    if !AnyMovable(l.objects, ids) {
      return l;
    }
    var next := StandardizeFields(l, shapes, ids);
    var p := MakePlan(l, next, rank, columns, ids);
    var placed, end := PlaceBlock(p);
    var shift := 0;
    if ids.Some? {
      shift := ClearTheWay(placed, Obstacles(next.objects, ids), p.y);
    }
    r := Layout(Canvas(Max(next.canvas.width, p.RightEdge()), Max(next.canvas.height, end + shift + PAGE_MARGIN)),
                MoveAll(next.objects, placed, shift));
  }

  // ---- A free slot for one more field ----

  /** The lowest bottom, plus a row gap, of the obstacles that meet a box; none when the box is free. */
  function LowestMeeting(box: Rect, obstacles: seq<Rect>): (r: Option<int>)
    ensures r.None? <==> forall k :: 0 <= k < |obstacles| ==> !Intersect(box, obstacles[k])
    ensures r.Some? ==> exists k :: 0 <= k < |obstacles| && Intersect(box, obstacles[k]) && Bottom(obstacles[k]) == r.value
  {
    if obstacles == [] then None
    else
      var n := |obstacles| - 1;
      var r := LowestMeeting(box, obstacles[..n]);
      if !Intersect(box, obstacles[n]) then r
      else if r.None? then Some(Bottom(obstacles[n]))
      else Some(Max(r.value, Bottom(obstacles[n])))
  }

  function LowestBottom(obstacles: seq<Rect>, y: nat): (r: nat)
    ensures r >= y
    ensures forall k :: 0 <= k < |obstacles| ==> Bottom(obstacles[k]) + ROW_GAP <= r
    ensures r == y || exists k :: 0 <= k < |obstacles| && Bottom(obstacles[k]) + ROW_GAP == r
  {
    if obstacles == [] then y
    else
      var n := |obstacles| - 1;
      Max(LowestBottom(obstacles[..n], y), Bottom(obstacles[n]) + ROW_GAP)
  }

  lemma {:induction false} MeetingIsPassed(box: Rect, obstacles: seq<Rect>)
    requires LowestMeeting(box, obstacles).Some?
    ensures var y := RoundUp(LowestMeeting(box, obstacles).value + ROW_GAP);
            y > box.y && Pending(obstacles, y) < Pending(obstacles, box.y)
  {
    var hit := LowestMeeting(box, obstacles);
    var k :| 0 <= k < |obstacles| && Intersect(box, obstacles[k]) && Bottom(obstacles[k]) == hit.value;
    PendingShrinks(obstacles, box.y, RoundUp(hit.value + ROW_GAP), k);
  }

  /** Moves a box down until it meets no obstacle, and leaves it where it is when it meets none. */
  method SlideDown(x: nat, start: nat, size: Size, obstacles: seq<Rect>) returns (y: nat)
    requires start % GRID == 0
    ensures y >= start && y % GRID == 0
    ensures Clear(Rect(x, y, size.width, size.height), obstacles)
    ensures y == start <==> Clear(Rect(x, start, size.width, size.height), obstacles)
  {
    hide Intersect, Pending;
    y := start;
    while true
      invariant y >= start && y % GRID == 0
      invariant y > start ==> !Clear(Rect(x, start, size.width, size.height), obstacles)
      decreases Pending(obstacles, y)
    {
      var box := Rect(x, y, size.width, size.height);
      var hit := LowestMeeting(box, obstacles);
      if hit.None? {
        return;
      }
      MeetingIsPassed(box, obstacles);
      y := RoundUp(hit.value + ROW_GAP);
    }
  }

  predicate Clear(box: Rect, obstacles: seq<Rect>) {
    forall k :: 0 <= k < |obstacles| ==> !Intersect(box, obstacles[k])
  }

  datatype Point = Point(x: nat, y: nat)

  function Boxes(objects: seq<Object>): seq<Rect> { seq(|objects|, i requires 0 <= i < |objects| => BoxOf(objects[i])) }

  /** The room a new field takes at a point, its label space included. */
  function NewBox(shape: Shape, p: Point): Rect {
    Rect(p.x, p.y, StandardSize(shape).width, StandardSize(shape).height + LABEL_SPACE)
  }

  function Snapped(x: int, y: int): Point { Point(Max(0, SnapToGrid(x)), Max(0, SnapToGrid(y))) }

  /**
   * A grid slot where the new field meets no object: the requested slot, snapped, exactly when that is free, and a
   * slot below everything when none is requested.
   */
  method NextStandardFieldPosition(l: Layout, shape: Shape, point: Option<(int, int)>) returns (r: Point)
    ensures r.x % GRID == 0 && r.y % GRID == 0
    ensures forall i :: 0 <= i < |l.objects| ==> !Intersect(NewBox(shape, r), BoxOf(l.objects[i]))
    ensures point.Some? ==>
              var wish := Snapped(point.value.0, point.value.1);
              r.x == wish.x && r.y >= wish.y
              && (r == wish <==> forall i :: 0 <= i < |l.objects| ==> !Intersect(NewBox(shape, wish), BoxOf(l.objects[i])))
    ensures point.None? ==>
              r.x == PAGE_MARGIN && r.y >= PAGE_MARGIN
              && (forall i :: 0 <= i < |l.objects| ==> Bottom(BoxOf(l.objects[i])) + ROW_GAP <= r.y)
  {
    hide Intersect, StandardSize, LowestBottom, BoxOf, SnapToGrid, RoundUp;
    var size := StandardSize(shape);
    var start := if point.Some? then Snapped(point.value.0, point.value.1) else Point(PAGE_MARGIN, PAGE_MARGIN);
    var obstacles := Boxes(l.objects);
    var y := start.y;
    if point.None? && |obstacles| > 0 {
      y := LowestBottom(obstacles, y);
    }
    y := SlideDown(start.x, RoundUp(y), Size(size.width, size.height + LABEL_SPACE), obstacles);
    r := Point(start.x, y);
    assert forall i :: 0 <= i < |l.objects| ==> obstacles[i] == BoxOf(l.objects[i]);
  }
}
