/**
 * The client's mapping between the 300 x 300 drawing area and the nine
 * cells: which cell a click lands in, and where a cell's glyph is drawn.
 * Coordinates are integers; the mapping only compares and adds small
 * constants, so the 32-bit width of the coordinates plays no part.
 */
module Geometry {
  import opened Protocol
  import opened Board

  datatype Point = Point(x: int, y: int)

  /** `pt` lies in the box with corners `first` and `second`, borders included. */
  predicate Between(pt: Point, first: Point, second: Point)
    ensures Between(pt, first, second) ==> first.x <= second.x && first.y <= second.y
  {
    (pt.x >= first.x && pt.x <= second.x) && (pt.y >= first.y && pt.y <= second.y)
  }

  /** Both corners of a box and its whole border lie in it; a point one step outside does not. */
  lemma BetweenInclusive(pt: Point, first: Point, second: Point)
    requires first.x <= second.x && first.y <= second.y
    ensures Between(first, first, second) && Between(second, first, second)
    ensures first.y <= pt.y <= second.y ==> Between(Point(first.x, pt.y), first, second) && Between(Point(second.x, pt.y), first, second)
    ensures !Between(Point(first.x - 1, pt.y), first, second) && !Between(Point(second.x + 1, pt.y), first, second)
    ensures !Between(Point(pt.x, first.y - 1), first, second) && !Between(Point(pt.x, second.y + 1), first, second)
  {
  }

  function Min(a: int, b: int): int
  {
    if a <= b then a else b
  }

  /**
   * The cell a click lands in. The nine boxes of side 100 are tried in cell
   * order and a later match replaces an earlier one, so a point on a shared
   * border belongs to the box to its right or below. Points outside
   * [0, 300] x [0, 300] land in no cell.
   */
  function GetCellNumber(clickedPoint: Point): (cellNumber: CellNumber)
    ensures cellNumber == None <==> !(0 <= clickedPoint.x <= 300 && 0 <= clickedPoint.y <= 300)
    ensures cellNumber != None ==>
              Row(cellNumber) == Min(clickedPoint.y / 100, 2) && Column(cellNumber) == Min(clickedPoint.x / 100, 2)
  {
    var c0 := None;
    var c1 := if Between(clickedPoint, Point(0, 0), Point(100, 100)) then First else c0;
    var c2 := if Between(clickedPoint, Point(100, 0), Point(200, 100)) then Second else c1;
    var c3 := if Between(clickedPoint, Point(200, 0), Point(300, 100)) then Third else c2;
    var c4 := if Between(clickedPoint, Point(0, 100), Point(100, 200)) then Forth else c3;
    var c5 := if Between(clickedPoint, Point(100, 100), Point(200, 200)) then Fifth else c4;
    var c6 := if Between(clickedPoint, Point(200, 100), Point(300, 200)) then Sixth else c5;
    var c7 := if Between(clickedPoint, Point(0, 200), Point(100, 300)) then Seventh else c6;
    var c8 := if Between(clickedPoint, Point(100, 200), Point(200, 300)) then Eighth else c7;
    var c9 := if Between(clickedPoint, Point(200, 200), Point(300, 300)) then Ninth else c8;
    c9
  }

  /**
   * Where the glyph of a cell is drawn: the centre of the cell's box moved
   * 20 up and 20 left. For `None` the empty point is moved the same way.
   */
  function GetPointToPaint(cellNumber: CellNumber): (pointToPaint: Point)
    ensures cellNumber != None ==>
              pointToPaint == Point(50 + 100 * Column(cellNumber) - 20, 50 + 100 * Row(cellNumber) - 20)
    ensures cellNumber == None ==> pointToPaint == Point(-20, -20)
  {
    var number := 20;
    var centre :=
      match cellNumber
      case First => Point(50, 50)
      case Second => Point(150, 50)
      case Third => Point(250, 50)
      case Forth => Point(50, 150)
      case Fifth => Point(150, 150)
      case Sixth => Point(250, 150)
      case Seventh => Point(50, 250)
      case Eighth => Point(150, 250)
      case Ninth => Point(250, 250)
      case None => Point(0, 0);
    Point(centre.x - number, centre.y - number)
  }

  /** A glyph is drawn inside its own cell: clicking where it is drawn selects that cell again. */
  lemma PaintPointRoundTrip(cellNumber: CellNumber)
    ensures GetCellNumber(GetPointToPaint(cellNumber)) == cellNumber
  {
  }
}
