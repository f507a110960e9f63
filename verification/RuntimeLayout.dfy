/** Showing a saved layout with data that needs taller controls: the rows below move down, the saved layout stays as it is. */
module RuntimeLayout {
  import opened Common

  type Positive = n: int | n > 0 witness 1

  datatype Object = Object(id: string, isField: bool, x: nat, y: nat, width: Positive, height: Positive, data: string)

  /** How much the rows below the row at `y` move down for it. */
  datatype Row = Row(y: nat, extra: nat)

  /** The height the control for a field needs for its data. */
  type Needs = Object -> nat

  function Grown(o: Object, needs: Needs): Object { if o.isField then o.(height := Max(o.height, needs(o))) else o }

  function ExtraAt(rows: seq<Row>, y: nat): nat {
    if rows == [] then 0 else if rows[|rows| - 1].y == y then rows[|rows| - 1].extra else ExtraAt(rows[..|rows| - 1], y)
  }

  /** Map.set: the value of a row that is there already is replaced. */
  function Set(rows: seq<Row>, y: nat, extra: nat): seq<Row> {
    if rows == [] then [Row(y, extra)]
    else if rows[|rows| - 1].y == y then rows[..|rows| - 1] + [Row(y, extra)]
    else Set(rows[..|rows| - 1], y, extra) + [rows[|rows| - 1]]
  }

  function ExtraRows(objects: seq<Object>, needs: Needs): seq<Row> {
    if objects == [] then []
    else
      var rows, o := ExtraRows(objects[..|objects| - 1], needs), objects[|objects| - 1];
      if o.isField then Set(rows, o.y, Max(ExtraAt(rows, o.y), Grown(o, needs).height - o.height)) else rows
  }

  /** The sum of the extras of the rows above `y`. */
  function ShiftAt(rows: seq<Row>, y: nat): nat {
    if rows == [] then 0
    else ShiftAt(rows[..|rows| - 1], y) + if rows[|rows| - 1].y < y then rows[|rows| - 1].extra else 0
  }

  function Laid(objects: seq<Object>, needs: Needs): seq<Object> {
    var rows := ExtraRows(objects, needs);
    seq(|objects|, i requires 0 <= i < |objects| =>
      var o := Grown(objects[i], needs);
      o.(y := o.y + ShiftAt(rows, o.y)))
  }

  /** Fields without a value are hidden; the others are laid out. */
  function Visible(objects: seq<Object>, shown: Object -> bool): seq<Object> {
    if objects == [] then []
    else
      var o := objects[|objects| - 1];
      Visible(objects[..|objects| - 1], shown) + if !o.isField || shown(o) then [o] else []
  }

  method RuntimeControlLayout(objects: seq<Object>, shown: Object -> bool, needs: Needs) returns (laid: seq<Object>)
    ensures laid == Laid(Visible(objects, shown), needs)
  {
    var visible := Visible(objects, shown);
    var rows: seq<Row> := [];
    var grown: seq<Object> := [];
    for i := 0 to |visible|
      invariant rows == ExtraRows(visible[..i], needs)
      invariant |grown| == i && forall k :: 0 <= k < i ==> grown[k] == Grown(visible[k], needs)
    {
      assert visible[..i + 1][..i] == visible[..i];
      var o := visible[i];
      if o.isField {
        var height := Max(o.height, needs(o));
        rows := Set(rows, o.y, Max(ExtraAt(rows, o.y), height - o.height));
        grown := grown + [o.(height := height)];
      } else {
        grown := grown + [o];
      }
    }
    assert visible[..|visible|] == visible;
    laid := seq(|grown|, i requires 0 <= i < |grown| => grown[i].(y := grown[i].y + ShiftAt(rows, grown[i].y)));
  }

  // ---- Rows ----

  lemma {:induction false} SetSets(rows: seq<Row>, y: nat, extra: nat, z: nat)
    ensures ExtraAt(Set(rows, y, extra), z) == if z == y then extra else ExtraAt(rows, z)
  {
    if rows != [] {
      var init, last := rows[..|rows| - 1], rows[|rows| - 1];
      SetSets(init, y, extra, z);
      var r := Set(rows, y, extra);
      assert r[..|r| - 1] == if last.y == y then init else Set(init, y, extra);
    }
  }

  /** A row holds at least the growth of every field on it. */
  lemma {:induction false} RowsHoldGrowth(objects: seq<Object>, needs: Needs, i: nat)
    requires i < |objects|
    ensures Grown(objects[i], needs).height - objects[i].height <= ExtraAt(ExtraRows(objects, needs), objects[i].y)
  {
    hide Grown, ExtraAt, Set;
    var n := |objects| - 1;
    var init, o := objects[..n], objects[n];
    var rows := ExtraRows(init, needs);
    if i < n { RowsHoldGrowth(init, needs, i); }
    GrownIsTaller(o, needs);
    SetSets(rows, o.y, Max(ExtraAt(rows, o.y), Grown(o, needs).height - o.height), objects[i].y);
  }

  lemma GrownIsTaller(o: Object, needs: Needs)
    ensures Grown(o, needs).height >= o.height && (!o.isField ==> Grown(o, needs) == o)
  {
  }

  /** Below a row everything moves down by at least the extra of that row. */
  lemma {:induction false} LowerRowsMoveFurther(rows: seq<Row>, y: nat, z: nat)
    requires y < z
    ensures ShiftAt(rows, y) + ExtraAt(rows, y) <= ShiftAt(rows, z)
  {
    if rows != [] { LowerRowsMoveFurther(rows[..|rows| - 1], y, z); }
  }

  // ---- What the layout keeps ----

  predicate Meet(a: Object, b: Object) {
    a.x < b.x + b.width && a.x + a.width > b.x && a.y < b.y + b.height && a.y + a.height > b.y
  }

  /** Objects that did not overlap still do not, however tall the data makes the fields. */
  lemma {:induction false} ApartStaysApart(objects: seq<Object>, needs: Needs, i: nat, j: nat)
    requires i < |objects| && j < |objects| && !Meet(objects[i], objects[j])
    ensures !Meet(Laid(objects, needs)[i], Laid(objects, needs)[j])
  {
    hide ExtraRows, ExtraAt, ShiftAt;
    var rows := ExtraRows(objects, needs);
    RowsHoldGrowth(objects, needs, i);
    RowsHoldGrowth(objects, needs, j);
    var a, b := objects[i], objects[j];
    if a.y + a.height <= b.y {
      LowerRowsMoveFurther(rows, a.y, b.y);
    } else if b.y + b.height <= a.y {
      LowerRowsMoveFurther(rows, b.y, a.y);
    }
  }

  /** Rows stay rows, in their order, and no closer together; everything but height and vertical position is kept. */
  lemma {:induction false} RowsStayRows(objects: seq<Object>, needs: Needs, i: nat, j: nat)
    requires i < |objects| && j < |objects| && objects[i].y <= objects[j].y
    ensures var a, b := Laid(objects, needs)[i], Laid(objects, needs)[j];
            && b.y - a.y >= objects[j].y - objects[i].y
            && (objects[i].y == objects[j].y ==> a.y == b.y)
            && a == objects[i].(y := a.y, height := a.height) && a.y >= objects[i].y && a.height >= objects[i].height
  {
    hide ExtraRows, ExtraAt, ShiftAt;
    var rows := ExtraRows(objects, needs);
    if objects[i].y < objects[j].y { LowerRowsMoveFurther(rows, objects[i].y, objects[j].y); }
  }
}
