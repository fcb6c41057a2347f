/**
 * The game window of one player, without its drawing: the 3x3 move matrix,
 * the list of win vectors found so far, the turn and game-started flags, and
 * the calls the window makes on its service channel, appended to `sent`.
 *
 * Message boxes are modelled as the reply of the click handler and of the
 * registration callback; the window closing itself is left out.
 */
module Client {
  import opened Protocol
  import opened Board
  import opened Geometry

  /** The outcome of a click: the move was sent, or the message the window shows instead. */
  datatype ClickReply = MoveSent | OtherPlayerNotJoined | NotYourTurn | ClickOnBlankRegion

  class TicTacToeForm {
    /** 3x3 matrix of the moves of both players, indexed [row, column]. */
    const moveMatrix: array2<Slot>
    /** The win vectors recorded so far, in recording order. */
    var winVectors: seq<WinVector>
    /** The side this player asked for. */
    const playerChoice: PlayerType
    /** The side the server allotted. */
    var playerType: PlayerType
    var isYourTurn: bool
    /** Whether both players have joined. */
    var gameStarted: bool
    /** Whether the window closes without asking and without aborting the game. */
    var closeSilently: bool
    /** Every call made on the service channel so far, oldest first. */
    var sent: seq<ServiceCall>

    ghost predicate Valid()
      reads moveMatrix
    {
      moveMatrix.Length0 == 3 && moveMatrix.Length1 == 3 && WellPlaced(Cells())
    }

    /** The move matrix read row by row. */
    ghost function Cells(): (g: Grid)
      requires moveMatrix.Length0 == 3 && moveMatrix.Length1 == 3
      reads moveMatrix
      ensures forall r, k :: 0 <= r < 3 && 0 <= k < 3 ==> g[3 * r + k] == moveMatrix[r, k]
    {
      [moveMatrix[0, 0], moveMatrix[0, 1], moveMatrix[0, 2],
       moveMatrix[1, 0], moveMatrix[1, 1], moveMatrix[1, 2],
       moveMatrix[2, 0], moveMatrix[2, 1], moveMatrix[2, 2]]
    }

    constructor (choice: PlayerType)
      ensures Valid() && fresh(moveMatrix)
      ensures Cells() == [Empty, Empty, Empty, Empty, Empty, Empty, Empty, Empty, Empty]
      ensures winVectors == [] && sent == []
      ensures playerChoice == choice && playerType == Zero
      ensures !isYourTurn && !gameStarted && !closeSilently
    {
      moveMatrix := new Slot[3, 3]((r, k) => Empty);
      winVectors := [];
      playerChoice := choice;
      playerType := Zero;
      isYourTurn := false;
      gameStarted := false;
      closeSilently := false;
      sent := [];
    }

    /** On load the window registers with the side the player chose. */
    method Load()
      modifies this
      ensures sent == old(sent) + [Register(playerChoice)]
      ensures winVectors == old(winVectors) && playerType == old(playerType)
      ensures isYourTurn == old(isYourTurn) && gameStarted == old(gameStarted) && closeSilently == old(closeSilently)
    {
      sent := sent + [Register(playerChoice)];
    }

    /**
     * Writes a move to the square of its cell, n going to [(n - 1) / 3, (n - 1) % 3];
     * a move for `None` writes nothing. No other square changes.
     */
    method Store(moveMetadata: MoveMetadata)
      requires Valid()
      modifies moveMatrix
      ensures Valid()
      ensures Cells() == Stored(old(Cells()), moveMetadata)
      ensures moveMetadata.cellNumber != None ==>
                moveMatrix[Row(moveMetadata.cellNumber), Column(moveMetadata.cellNumber)] == Filled(moveMetadata)
      ensures forall r, k :: 0 <= r < 3 && 0 <= k < 3 && 3 * r + k + 1 != CellValue(moveMetadata.cellNumber) ==>
                moveMatrix[r, k] == old(moveMatrix[r, k])
    {
      ghost var before := Cells();
      assert WellPlaced(before);
      match moveMetadata.cellNumber {
        case First => moveMatrix[0, 0] := Filled(moveMetadata);
        case Second => moveMatrix[0, 1] := Filled(moveMetadata);
        case Third => moveMatrix[0, 2] := Filled(moveMetadata);
        case Forth => moveMatrix[1, 0] := Filled(moveMetadata);
        case Fifth => moveMatrix[1, 1] := Filled(moveMetadata);
        case Sixth => moveMatrix[1, 2] := Filled(moveMetadata);
        case Seventh => moveMatrix[2, 0] := Filled(moveMetadata);
        case Eighth => moveMatrix[2, 1] := Filled(moveMetadata);
        case Ninth => moveMatrix[2, 2] := Filled(moveMetadata);
        case None =>
      }
      ghost var n := CellValue(moveMetadata.cellNumber);
      ghost var after := Cells();
      forall i | 0 <= i < 9
        ensures after[i] == if i + 1 == n then Filled(moveMetadata) else before[i]
      {
        var r, k := i / 3, i % 3;
        assert i == 3 * r + k;
        assert after[3 * r + k] == moveMatrix[r, k];
        assert before[3 * r + k] == old(moveMatrix[r, k]);
      }
      StoredPointwise(before, after, moveMetadata);
      assert WellPlaced(after);
    }

    /** Whether the cell under the click already holds a move; a click in no cell finds nothing. */
    function HasValueInCell(clickedPoint: Point): (occupied: bool)
      requires Valid()
      reads moveMatrix
      ensures occupied <==>
                var cellNumber := GetCellNumber(clickedPoint);
                cellNumber != None && Cells()[CellValue(cellNumber) - 1].Filled?
    {
      match GetCellNumber(clickedPoint)
      case First => moveMatrix[0, 0].Filled?
      case Second => moveMatrix[0, 1].Filled?
      case Third => moveMatrix[0, 2].Filled?
      case Forth => moveMatrix[1, 0].Filled?
      case Fifth => moveMatrix[1, 1].Filled?
      case Sixth => moveMatrix[1, 2].Filled?
      case Seventh => moveMatrix[2, 0].Filled?
      case Eighth => moveMatrix[2, 1].Filled?
      case Ninth => moveMatrix[2, 2].Filled?
      case None => false
    }

    /** Square [r, k] holds a move of `player`. */
    predicate HeldBy(r: int, k: int, player: PlayerType)
      requires moveMatrix.Length0 == 3 && moveMatrix.Length1 == 3
      requires 0 <= r < 3 && 0 <= k < 3
      reads moveMatrix
      ensures HeldBy(r, k, player) <==> Owns(Cells(), r, k, player)
    {
      moveMatrix[r, k].Filled? && moveMatrix[r, k].move.player == player
    }

    /** All nine squares hold a move. */
    predicate AllFilled()
      requires moveMatrix.Length0 == 3 && moveMatrix.Length1 == 3
      reads moveMatrix
      ensures AllFilled() <==> IsFull(Cells())
    {
      var full :=
        && moveMatrix[0, 0].Filled? && moveMatrix[0, 1].Filled? && moveMatrix[0, 2].Filled?
        && moveMatrix[1, 0].Filled? && moveMatrix[1, 1].Filled? && moveMatrix[1, 2].Filled?
        && moveMatrix[2, 0].Filled? && moveMatrix[2, 1].Filled? && moveMatrix[2, 2].Filled?;
      assert full <==> IsFull(Cells()) by {
        var g := Cells();
        forall i | 0 <= i < 9
          ensures g[i] == moveMatrix[i / 3, i % 3]
        {
          assert i == 3 * (i / 3) + i % 3;
        }
      }
      full
    }

    /**
     * Looks for lines the mover holds after a move: the first full row, the
     * first full column, then each diagonal, appending each to the win
     * vectors. If any vector is recorded, now or before, the mover has won;
     * otherwise, if all nine squares are filled, the game is drawn. Either
     * ending unregisters this player.
     */
    method CheckGameStatus(moveMetadata: MoveMetadata) returns (status: GameStatus)
      requires Valid()
      modifies this
      ensures Valid()
      ensures winVectors == old(winVectors) + FoundVectors(Cells(), moveMetadata.player)
      ensures status == Status(Cells(), winVectors, moveMetadata.player)
      ensures sent == old(sent) + (if status.InPlay? then [] else [Unregister(playerType)])
      ensures closeSilently == (old(closeSilently) || !status.InPlay?)
      ensures playerType == old(playerType) && isYourTurn == old(isYourTurn) && gameStarted == old(gameStarted)
    {
      ghost var g := Cells();
      var player := moveMetadata.player;

      ScanRows(player);
      ScanColumns(player);
      ScanDiagonals(player);
      assert winVectors == old(winVectors) + FoundVectors(g, player);
      assert g == Cells();
      if |winVectors| > 0 {
        Won(player);
        assert g == Cells();
        return Win(player);
      }

      if AllFilled() && |winVectors| == 0 {
        Draw();
        assert g == Cells();
        return Drawn;
      }
      return InPlay;
    }

    /** Appends the first row, from the top, that `player` holds completely, if any. */
    method ScanRows(player: PlayerType)
      requires Valid()
      modifies this
      ensures winVectors == old(winVectors) + RowsFound(Cells(), player)
      ensures sent == old(sent) && closeSilently == old(closeSilently)
      ensures playerType == old(playerType) && isYourTurn == old(isYourTurn) && gameStarted == old(gameStarted)
    {
      ghost var g := Cells();
      var i := 0;
      while i <= 2
        invariant 0 <= i <= 3
        invariant winVectors == old(winVectors)
        invariant forall r :: 0 <= r < i ==> !RowOwned(g, r, player)
      {
        if HeldBy(i, 0, player) && HeldBy(i, 1, player) && HeldBy(i, 2, player) {
          winVectors := winVectors + [RowVector(i)];
          break;
        }
        i := i + 1;
      }
    }

    /** Appends the first column, from the left, that `player` holds completely, if any. */
    method ScanColumns(player: PlayerType)
      requires Valid()
      modifies this
      ensures winVectors == old(winVectors) + ColumnsFound(Cells(), player)
      ensures sent == old(sent) && closeSilently == old(closeSilently)
      ensures playerType == old(playerType) && isYourTurn == old(isYourTurn) && gameStarted == old(gameStarted)
    {
      ghost var g := Cells();
      var i := 0;
      while i <= 2
        invariant 0 <= i <= 3
        invariant winVectors == old(winVectors)
        invariant forall k :: 0 <= k < i ==> !ColumnOwned(g, k, player)
      {
        if HeldBy(0, i, player) && HeldBy(1, i, player) && HeldBy(2, i, player) {
          winVectors := winVectors + [ColumnVector(i)];
          break;
        }
        i := i + 1;
      }
    }

    /** Appends each diagonal that `player` holds completely, the back diagonal first. */
    method ScanDiagonals(player: PlayerType)
      requires Valid()
      modifies this
      ensures winVectors == old(winVectors)
                + (if BackDiagonalOwned(Cells(), player) then [BackDiagonal] else [])
                + (if ForwardDiagonalOwned(Cells(), player) then [ForwardDiagonal] else [])
      ensures sent == old(sent) && closeSilently == old(closeSilently)
      ensures playerType == old(playerType) && isYourTurn == old(isYourTurn) && gameStarted == old(gameStarted)
    {
      if HeldBy(0, 0, player) && HeldBy(1, 1, player) && HeldBy(2, 2, player) {
        winVectors := winVectors + [BackDiagonal];
      }
      if HeldBy(0, 2, player) && HeldBy(1, 1, player) && HeldBy(2, 0, player) {
        winVectors := winVectors + [ForwardDiagonal];
      }
    }

    /** The game ended in a draw: this player unregisters and the window closes without asking. */
    method Draw()
      modifies this
      ensures sent == old(sent) + [Unregister(playerType)] && closeSilently
      ensures winVectors == old(winVectors) && playerType == old(playerType)
      ensures isYourTurn == old(isYourTurn) && gameStarted == old(gameStarted)
    {
      sent := sent + [Unregister(playerType)];
      closeSilently := true;
    }

    /** `winner` won: this player unregisters and the window closes without asking. */
    method Won(winner: PlayerType)
      modifies this
      ensures sent == old(sent) + [Unregister(playerType)] && closeSilently
      ensures winVectors == old(winVectors) && playerType == old(playerType)
      ensures isYourTurn == old(isYourTurn) && gameStarted == old(gameStarted)
    {
      sent := sent + [Unregister(playerType)];
      closeSilently := true;
    }

    /**
     * A click on the board. A move is sent only when both players have
     * joined, it is this player's turn and the clicked cell is empty; the move
     * is stored locally first and then the turn is given up. Otherwise the
     * matching message is the reply and nothing changes.
     */
    method Click(clickedPoint: Point) returns (reply: ClickReply)
      requires Valid()
      modifies this, moveMatrix
      ensures Valid()
      ensures reply == MoveSent <==> old(gameStarted) && old(isYourTurn) && !old(HasValueInCell(clickedPoint))
      ensures reply == OtherPlayerNotJoined <==> !old(gameStarted)
      ensures reply == NotYourTurn <==> old(gameStarted) && !old(isYourTurn)
      ensures reply == ClickOnBlankRegion <==> old(gameStarted) && old(isYourTurn) && old(HasValueInCell(clickedPoint))
      ensures reply == MoveSent ==>
                var moveMetadata := MoveMetadata(playerType, GetCellNumber(clickedPoint));
                && Cells() == Stored(old(Cells()), moveMetadata)
                && sent == old(sent) + [Move(moveMetadata)]
                && !isYourTurn
      ensures reply != MoveSent ==>
                Cells() == old(Cells()) && sent == old(sent) && isYourTurn == old(isYourTurn)
      ensures gameStarted == old(gameStarted) && playerType == old(playerType)
      ensures winVectors == old(winVectors) && closeSilently == old(closeSilently)
    {
      if !gameStarted {
        return OtherPlayerNotJoined;
      }
      if isYourTurn {
        if !HasValueInCell(clickedPoint) {
          var moveMetadata := MoveMetadata(playerType, GetCellNumber(clickedPoint));
          Store(moveMetadata);
          sent := sent + [Move(moveMetadata)];
          isYourTurn := false;
          reply := MoveSent;
        } else {
          reply := ClickOnBlankRegion;
        }
      } else {
        reply := NotYourTurn;
      }
    }

    /**
     * The server admitted this player. The first player to arrive gets the
     * first turn; the allotted side is kept; the reply says whether the choice
     * was overridden.
     */
    method Registered(earlyBird: bool, allottedPlayer: PlayerType) returns (choiceNotAvailable: bool)
      modifies this
      ensures isYourTurn == (earlyBird || old(isYourTurn))
      ensures playerType == allottedPlayer
      ensures choiceNotAvailable <==> allottedPlayer != playerChoice
      ensures gameStarted == old(gameStarted) && winVectors == old(winVectors)
      ensures sent == old(sent) && closeSilently == old(closeSilently)
    {
      if earlyBird {
        isYourTurn := true;
      }
      choiceNotAvailable := allottedPlayer != playerChoice;
      playerType := allottedPlayer;
    }

    /**
     * A move relayed by the server, this player's own included: it is
     * stored, the game status is checked for the mover, and the turn flag is
     * set to the one received.
     */
    method Moved(moveMetadata: MoveMetadata, yourTurn: bool) returns (status: GameStatus)
      requires Valid()
      modifies this, moveMatrix
      ensures Valid()
      ensures Cells() == Stored(old(Cells()), moveMetadata)
      ensures winVectors == old(winVectors) + FoundVectors(Cells(), moveMetadata.player)
      ensures status == Status(Cells(), winVectors, moveMetadata.player)
      ensures sent == old(sent) + (if status.InPlay? then [] else [Unregister(playerType)])
      ensures closeSilently == (old(closeSilently) || !status.InPlay?)
      ensures isYourTurn == yourTurn
      ensures playerType == old(playerType) && gameStarted == old(gameStarted)
    {
      Store(moveMetadata);
      status := CheckGameStatus(moveMetadata);
      isYourTurn := yourTurn;
    }

    /** Both players have joined. */
    method GameStarted()
      modifies this
      ensures gameStarted
      ensures isYourTurn == old(isYourTurn) && playerType == old(playerType)
      ensures winVectors == old(winVectors) && sent == old(sent) && closeSilently == old(closeSilently)
    {
      gameStarted := true;
    }

    /** The other player left: the window closes without asking. */
    method Aborted(player: PlayerType)
      modifies this
      ensures closeSilently
      ensures isYourTurn == old(isYourTurn) && gameStarted == old(gameStarted) && playerType == old(playerType)
      ensures winVectors == old(winVectors) && sent == old(sent)
    {
      closeSilently := true;
    }

    /** Two players are already registered: the window closes without asking. */
    method RegistrationFailed()
      modifies this
      ensures closeSilently
      ensures isYourTurn == old(isYourTurn) && gameStarted == old(gameStarted) && playerType == old(playerType)
      ensures winVectors == old(winVectors) && sent == old(sent)
    {
      closeSilently := true;
    }
  }
}
