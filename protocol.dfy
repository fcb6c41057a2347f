/**
 * The data contract shared by the TicTacToe server and its clients: the two
 * player types, the ten cell numbers, the immutable move record, and the
 * one-way operations of the service contract (client to server) and of the
 * callback contract (server to client).
 */
module Protocol {

  /** The side a player plays. Exactly two values, declared as 0 and 1. */
  datatype PlayerType = Zero | Cross

  /** The declared value of a player type. */
  function PlayerValue(p: PlayerType): (v: int)
    ensures v == 0 <==> p == Zero
    ensures v == 1 <==> p == Cross
  {
    match p
    case Zero => 0
    case Cross => 1
  }

  /** The side that is not `p`. */
  function Other(p: PlayerType): (q: PlayerType)
    ensures q != p
  {
    match p
    case Zero => Cross
    case Cross => Zero
  }

  /**
   * A board cell, numbered row-major from 1 (top left) to 9 (bottom right);
   * `None` (value 0) names no cell. The spelling `Forth` is the contract's own.
   */
  datatype CellNumber = None | First | Second | Third | Forth | Fifth | Sixth | Seventh | Eighth | Ninth

  /** The declared value of a cell number. */
  function CellValue(c: CellNumber): (n: int)
    ensures 0 <= n <= 9
    ensures n == 0 <==> c == None
  {
    match c
    case None => 0
    case First => 1
    case Second => 2
    case Third => 3
    case Forth => 4
    case Fifth => 5
    case Sixth => 6
    case Seventh => 7
    case Eighth => 8
    case Ninth => 9
  }

  /** The cell number declared with value `n`, for `n` in 0..9. */
  function CellFromValue(n: int): (c: CellNumber)
    requires 0 <= n <= 9
    ensures c == None <==> n == 0
  {
    if n == 1 then First
    else if n == 2 then Second
    else if n == 3 then Third
    else if n == 4 then Forth
    else if n == 5 then Fifth
    else if n == 6 then Sixth
    else if n == 7 then Seventh
    else if n == 8 then Eighth
    else if n == 9 then Ninth
    else None
  }

  /** The ten cell numbers and the values 0..9 are in one-to-one correspondence. */
  lemma CellValueRoundTrip(c: CellNumber, n: int)
    requires 0 <= n <= 9
    ensures CellFromValue(CellValue(c)) == c
    ensures CellValue(CellFromValue(n)) == n
  {
  }

  /**
   * One move: who played and where. A datatype value, so it cannot change
   * once built, as the contract's class with private setters promises.
   */
  datatype MoveMetadata = MoveMetadata(player: PlayerType, cellNumber: CellNumber)

  /** The operations a client calls on the server (all one-way). */
  datatype ServiceCall =
    | Register(requestedPlayer: PlayerType)
    | Move(moveMetadata: MoveMetadata)
    | Abort(player: PlayerType)
    | Unregister(player: PlayerType)

  /** The operations the server calls back on a client (all one-way). */
  datatype Callback =
    | Registered(earlyBird: bool, allottedPlayer: PlayerType)
    | GameStarted
    | Moved(moveMetadata: MoveMetadata, isYourTurn: bool)
    | Aborted(player: PlayerType)
    | RegistrationFailed

  /** The most players a game admits: one Cross and one Zero. */
  const MaxPlayers := 2

  /**
   * A map keyed by player type never holds more than two entries, and holds
   * two exactly when both sides are keys.
   */
  lemma AtMostTwoPlayers<V>(m: map<PlayerType, V>)
    ensures |m| <= MaxPlayers
    ensures |m| == MaxPlayers <==> Zero in m && Cross in m
  {
    var keys := m.Keys;
    forall k | k in keys
      ensures k == Zero || k == Cross
    {
      match k
      case Zero =>
      case Cross =>
    }
    if Zero in keys && Cross in keys {
      assert keys == {Zero, Cross};
    } else if Zero in keys {
      assert keys == {Zero};
    } else if Cross in keys {
      assert keys == {Cross};
    } else {
      assert keys == {};
    }
  }
}
