/**
 * The client's view of the board as a value: the 3x3 move matrix read
 * row-major, the eight winning lines, the win and draw detector the client
 * runs after every move it receives, and the effect of storing a move.
 */
module Board {
  import opened Protocol

  /** One square of the move matrix: empty, or holding the move played there. */
  datatype Slot = Empty | Filled(move: MoveMetadata)

  /** The move matrix read row by row: entry n - 1 is the square of cell n. */
  type Grid = g: seq<Slot> | |g| == 9
    witness [Empty, Empty, Empty, Empty, Empty, Empty, Empty, Empty, Empty]

  /** The matrix row of cell `c`. */
  function Row(c: CellNumber): (r: int)
    requires c != None
    ensures 0 <= r < 3
  {
    (CellValue(c) - 1) / 3
  }

  /** The matrix column of cell `c`. */
  function Column(c: CellNumber): (k: int)
    requires c != None
    ensures 0 <= k < 3
  {
    (CellValue(c) - 1) % 3
  }

  /** Distinct cells sit at distinct matrix positions, and entry n - 1 of a grid is position (row, column) of cell n. */
  lemma PositionDeterminesCell(c: CellNumber, d: CellNumber)
    requires c != None && d != None
    ensures CellValue(c) - 1 == 3 * Row(c) + Column(c)
    ensures Row(c) == Row(d) && Column(c) == Column(d) ==> c == d
  {
  }

  /** Every filled square holds the move whose cell number names that square. */
  ghost predicate WellPlaced(g: Grid)
  {
    forall i :: 0 <= i < 9 && g[i].Filled? ==> CellValue(g[i].move.cellNumber) == i + 1
  }

  /** The grid after the move `m` is written to the square of its cell; a move for `None` writes nothing. */
  function Stored(g: Grid, m: MoveMetadata): (r: Grid)
    ensures forall i :: 0 <= i < 9 ==>
              r[i] == if i + 1 == CellValue(m.cellNumber) then Filled(m) else g[i]
    ensures WellPlaced(g) ==> WellPlaced(r)
  {
    if m.cellNumber == None then g else g[CellValue(m.cellNumber) - 1 := Filled(m)]
  }

  /** A grid that agrees with `g` except for the square of `m`'s cell, which holds `m`, is `Stored(g, m)`. */
  lemma StoredPointwise(g: Grid, h: Grid, m: MoveMetadata)
    requires forall i :: 0 <= i < 9 ==> h[i] == if i + 1 == CellValue(m.cellNumber) then Filled(m) else g[i]
    ensures h == Stored(g, m)
  {
  }

  /**
   * The sender stores its own move and later receives it back from the
   * server; storing the same move again changes nothing.
   */
  lemma StoredTwice(g: Grid, m: MoveMetadata)
    ensures Stored(Stored(g, m), m) == Stored(g, m)
  {
  }

  /** All nine squares are filled. */
  predicate IsFull(g: Grid)
  {
    forall i :: 0 <= i < 9 ==> g[i].Filled?
  }

  /** The lines the client marks when a player holds all three of their cells. */
  datatype WinVector = Top | Center | Bottom | Left | Middle | Right | BackDiagonal | ForwardDiagonal

  /**
   * The cells a win vector covers: the rows {1,2,3}, {4,5,6}, {7,8,9}, the
   * columns {1,4,7}, {2,5,8}, {3,6,9} and the diagonals {1,5,9}, {3,5,7}.
   */
  function LineCells(v: WinVector): (cells: seq<int>)
    ensures |cells| == 3
    ensures forall n :: n in cells ==> 1 <= n <= 9
  {
    match v
    case Top => [1, 2, 3]
    case Center => [4, 5, 6]
    case Bottom => [7, 8, 9]
    case Left => [1, 4, 7]
    case Middle => [2, 5, 8]
    case Right => [3, 6, 9]
    case BackDiagonal => [1, 5, 9]
    case ForwardDiagonal => [3, 5, 7]
  }

  /** Player `p` holds every cell of the line `v`. */
  ghost predicate LineOwned(g: Grid, v: WinVector, p: PlayerType)
  {
    forall n :: n in LineCells(v) ==> g[n - 1].Filled? && g[n - 1].move.player == p
  }

  /** Player `p` holds some complete line. */
  ghost predicate HasWinningLine(g: Grid, p: PlayerType)
  {
    exists v :: LineOwned(g, v, p)
  }

  predicate IsRow(v: WinVector)
  {
    v == Top || v == Center || v == Bottom
  }

  predicate IsColumn(v: WinVector)
  {
    v == Left || v == Middle || v == Right
  }

  /** The square at matrix position (r, k) holds a move of player `p`. */
  predicate Owns(g: Grid, r: int, k: int, p: PlayerType)
    requires 0 <= r < 3 && 0 <= k < 3
  {
    g[3 * r + k].Filled? && g[3 * r + k].move.player == p
  }

  predicate RowOwned(g: Grid, r: int, p: PlayerType)
    requires 0 <= r < 3
  {
    Owns(g, r, 0, p) && Owns(g, r, 1, p) && Owns(g, r, 2, p)
  }

  predicate ColumnOwned(g: Grid, k: int, p: PlayerType)
    requires 0 <= k < 3
  {
    Owns(g, 0, k, p) && Owns(g, 1, k, p) && Owns(g, 2, k, p)
  }

  predicate BackDiagonalOwned(g: Grid, p: PlayerType)
  {
    Owns(g, 0, 0, p) && Owns(g, 1, 1, p) && Owns(g, 2, 2, p)
  }

  predicate ForwardDiagonalOwned(g: Grid, p: PlayerType)
  {
    Owns(g, 0, 2, p) && Owns(g, 1, 1, p) && Owns(g, 2, 0, p)
  }

  function RowVector(r: int): WinVector
    requires 0 <= r < 3
  {
    if r == 0 then Top else if r == 1 then Center else Bottom
  }

  function ColumnVector(k: int): WinVector
    requires 0 <= k < 3
  {
    if k == 0 then Left else if k == 1 then Middle else Right
  }

  /** The first row, from the top, that `p` holds completely, if any. */
  function RowsFound(g: Grid, p: PlayerType): seq<WinVector>
  {
    if RowOwned(g, 0, p) then [Top]
    else if RowOwned(g, 1, p) then [Center]
    else if RowOwned(g, 2, p) then [Bottom]
    else []
  }

  /** The first column, from the left, that `p` holds completely, if any. */
  function ColumnsFound(g: Grid, p: PlayerType): seq<WinVector>
  {
    if ColumnOwned(g, 0, p) then [Left]
    else if ColumnOwned(g, 1, p) then [Middle]
    else if ColumnOwned(g, 2, p) then [Right]
    else []
  }

  /**
   * The vectors the detector records for the mover `p`, in recording order:
   * at most one row, at most one column, then each diagonal `p` holds.
   */
  function FoundVectors(g: Grid, p: PlayerType): (found: seq<WinVector>)
    ensures |found| <= 4
    ensures forall i :: 0 <= i < |found| && IsRow(found[i]) ==> i == 0
  {
    RowsFound(g, p) + ColumnsFound(g, p)
    + (if BackDiagonalOwned(g, p) then [BackDiagonal] else [])
    + (if ForwardDiagonalOwned(g, p) then [ForwardDiagonal] else [])
  }

  /** Every recorded vector is a line `p` holds completely. */
  lemma FoundVectorsSound(g: Grid, p: PlayerType)
    ensures forall v :: v in FoundVectors(g, p) ==> LineOwned(g, v, p)
  {
    forall v | v in FoundVectors(g, p)
      ensures LineOwned(g, v, p)
    {
      var cells := LineCells(v);
      forall n | n in cells
        ensures g[n - 1].Filled? && g[n - 1].move.player == p
      {
        match v
        case Top => assert RowOwned(g, 0, p);
        case Center => assert RowOwned(g, 1, p);
        case Bottom => assert RowOwned(g, 2, p);
        case Left => assert ColumnOwned(g, 0, p);
        case Middle => assert ColumnOwned(g, 1, p);
        case Right => assert ColumnOwned(g, 2, p);
        case BackDiagonal => assert BackDiagonalOwned(g, p);
        case ForwardDiagonal => assert ForwardDiagonalOwned(g, p);
      }
    }
  }

  /** A line held completely by `p` is found: each diagonal always, a row or a column at least through the first one held. */
  lemma OwnedLineFound(g: Grid, v: WinVector, p: PlayerType)
    requires LineOwned(g, v, p)
    ensures IsRow(v) ==> exists w :: w in FoundVectors(g, p) && IsRow(w)
    ensures IsColumn(v) ==> exists w :: w in FoundVectors(g, p) && IsColumn(w)
    ensures v == BackDiagonal || v == ForwardDiagonal ==> v in FoundVectors(g, p)
  {
    var cells := LineCells(v);
    assert cells[0] in cells && cells[1] in cells && cells[2] in cells;
    var found := FoundVectors(g, p);
    match v
    case Top => assert RowOwned(g, 0, p) && found[0] == Top;
    case Center => assert RowOwned(g, 1, p) && IsRow(found[0]);
    case Bottom => assert RowOwned(g, 2, p) && IsRow(found[0]);
    case Left =>
      assert ColumnOwned(g, 0, p);
      assert IsColumn(found[|RowsFound(g, p)|]);
    case Middle =>
      assert ColumnOwned(g, 1, p);
      assert IsColumn(found[|RowsFound(g, p)|]);
    case Right =>
      assert ColumnOwned(g, 2, p);
      assert IsColumn(found[|RowsFound(g, p)|]);
    case BackDiagonal => assert BackDiagonalOwned(g, p);
    case ForwardDiagonal => assert ForwardDiagonalOwned(g, p);
  }

  /** The detector records something exactly when `p` holds one of the eight lines. */
  lemma FoundVectorsComplete(g: Grid, p: PlayerType)
    ensures FoundVectors(g, p) != [] <==> HasWinningLine(g, p)
  {
    var found := FoundVectors(g, p);
    if found != [] {
      FoundVectorsSound(g, p);
      assert found[0] in found;
    }
    if HasWinningLine(g, p) {
      var v :| LineOwned(g, v, p);
      OwnedLineFound(g, v, p);
    }
  }

  /**
   * The detector records no vector twice, at most one row and at most one
   * column, so at most four vectors in all.
   */
  lemma FoundVectorsShape(g: Grid, p: PlayerType)
    ensures var found := FoundVectors(g, p);
      && |found| <= 4
      && (forall i, j :: 0 <= i < j < |found| ==> found[i] != found[j])
      && (forall i, j :: 0 <= i < |found| && 0 <= j < |found| && IsRow(found[i]) && IsRow(found[j]) ==> i == j)
      && (forall i, j :: 0 <= i < |found| && 0 <= j < |found| && IsColumn(found[i]) && IsColumn(found[j]) ==> i == j)
  {
  }

  /** What the client concludes after a move of `mover`. */
  datatype GameStatus = InPlay | Win(winner: PlayerType) | Drawn

  /**
   * The outcome given the list of recorded vectors: a win for the mover when
   * any vector is recorded, otherwise a draw when the board is full.
   */
  function Status(g: Grid, vectors: seq<WinVector>, mover: PlayerType): (status: GameStatus)
    ensures status.Win? ==> status.winner == mover
    ensures status.Drawn? ==> IsFull(g) && vectors == []
    ensures status.InPlay? ==> !IsFull(g) && vectors == []
  {
    if |vectors| > 0 then Win(mover)
    else if IsFull(g) && |vectors| == 0 then Drawn
    else InPlay
  }

  /**
   * After a move, on a board where nothing was recorded before, the mover
   * wins exactly when it holds one of the eight lines, and the game is drawn
   * exactly when all nine squares are filled and it holds none; never both.
   */
  lemma StatusMeaning(g: Grid, prior: seq<WinVector>, mover: PlayerType)
    ensures var status := Status(g, prior + FoundVectors(g, mover), mover);
      && (status.Win? <==> prior != [] || HasWinningLine(g, mover))
      && (status.Win? ==> status.winner == mover)
      && (status.Drawn? <==> prior == [] && IsFull(g) && !HasWinningLine(g, mover))
      && (status.InPlay? <==> prior == [] && !IsFull(g) && !HasWinningLine(g, mover))
  {
    FoundVectorsComplete(g, mover);
  }
}
