# TicTacToe over a duplex service — a Dafny model

The system is a two-player tic-tac-toe game. A single server instance keeps
a dictionary from player type (Zero or Cross) to the callback channel of the
client playing that side. It admits at most two players, relays every move
to every open channel, and relays an abort to the other player. Each client
window keeps its own 3x3 move matrix and decides for itself whether it is its
turn, whether the clicked cell is free, and whether the last move won or
drew the game. The server checks none of this: it relays whatever it gets.

The model has five modules:

- `Protocol` is the shared data contract:
  - the `PlayerType` and `CellNumber` enumerations and their declared values;
  - the immutable `MoveMetadata` record;
  - the service operations (client to server) and the callback operations (server to client);
  - the two-player limit.
- `Service` is the server:
  - a class whose `players` map is the dictionary and whose `outbox` records every callback the server makes, in order;
  - which channels are Opened, and which channel made the call, are parameters of each operation;
  - a foreach over the dictionary is a loop that picks any unvisited key, so no enumeration order is assumed;
  - `Register` and `Move` return the order actually used as a ghost value.
- `Board` is the client's board as a value:
  - a 9-element grid read row by row;
  - storing a move;
  - the eight lines and the vectors the detector records;
  - the outcome of a move.
- `Geometry` holds the mapping between the 300 x 300 drawing area and the cells:
  - click to cell;
  - cell to glyph position.
- `Client` is the game window without its drawing:
  - a class over a 3x3 `array2` move matrix, the recorded win vectors, and the turn, game-started and close-silently flags;
  - `sent`, the calls the window makes on its channel;
  - message boxes become the reply of the click handler and of the registration callback.

## Model

| member | source | states |
|---|---|---|
| Protocol.PlayerValue | TicTacToeCommonLib/ITicTacToe.cs:110-116 | Zero is declared as 0 and Cross as 1. |
| Protocol.Other | TicTacToeServiceLib/TicTacToeService.cs:114-121 | The fallback side is never the requested side. |
| Protocol.CellValue | TicTacToeCommonLib/ITicTacToe.cs:122-144 | Cell values lie in 0..9, and 0 is exactly `None`. |
| Protocol.CellFromValue | TicTacToeCommonLib/ITicTacToe.cs:122-144 | The member declared with value 0 is `None`, and the members declared with 1..9 are real cells. |
| Protocol.CellValueRoundTrip | TicTacToeCommonLib/ITicTacToe.cs:122-144 | The ten cell numbers and their declared values 0..9 correspond one to one, in both directions. |
| Protocol.AtMostTwoPlayers | TicTacToeCommonLib/ITicTacToe.cs:80-84 | A dictionary keyed by player type never holds more than two entries. It holds two exactly when both Cross and Zero are keys, so no sequence of operations can exceed the limit. |
| Service.CheckAvailability | TicTacToeServiceLib/TicTacToeService.cs:106-129 | The result is the requested side when it is free, and the other side otherwise. With fewer than two entries the result is never a key already, so the dictionary's Add cannot collide (line 30). |
| Service.OpenChannelsMeaning | TicTacToeServiceLib/TicTacToeService.cs:35-41 | A foreach over the dictionary that calls only Opened channels reaches exactly the Opened channels of the visited entries. It reaches each of them once per entry. |
| Service.GameStartedMeaning | TicTacToeServiceLib/TicTacToeService.cs:33-42 | The `GameStarted` broadcast reaches every registered Opened channel, once per entry, and reaches no closed or unregistered channel. |
| Service.MovedMeaning | TicTacToeServiceLib/TicTacToeService.cs:49-55 | Every registered Opened channel receives `Moved(move, isYourTurn)`, once per entry. `isYourTurn` is false exactly for the sender's channel. No other channel is called. |
| Service.TicTacToeService.constructor | TicTacToeServiceLib/TicTacToeService.cs:12-13 | The service starts with no players and no calls made. |
| Service.TicTacToeService.Register | TicTacToeServiceLib/TicTacToeService.cs:17-43 | With two players registered, only the caller gets `RegistrationFailed` and the dictionary is unchanged. Otherwise exactly one entry (allotted side to caller) is added and the caller gets `Registered(earlyBird, allotted)`; earlyBird holds iff the dictionary was empty before, that is, iff it now holds one entry. When the second slot fills, `GameStarted` follows to the Opened channels in enumeration order. |
| Service.TicTacToeService.Move | TicTacToeServiceLib/TicTacToeService.cs:45-56 | The dictionary is unchanged. The calls made are `Moved` to each Opened channel in enumeration order, with the turn flag true exactly for non-senders. There is no turn, occupancy or game-over check. |
| Service.TicTacToeService.Abort | TicTacToeServiceLib/TicTacToeService.cs:58-74 | The dictionary ends empty whatever the channel states. If no registered channel is Opened and different from the sender, nothing is sent. Otherwise exactly one `Aborted(player)` goes to one such channel. |
| Service.TicTacToeService.Unregister | TicTacToeServiceLib/TicTacToeService.cs:97-100 | Only the key `player` is removed. An absent key is a no-op, the other entry keeps its channel, and nothing is sent. |
| Board.Row | TicTacToeClient/FrmTicTacToe.cs:556-588 | Cell n is in matrix row (n - 1) / 3, a row in 0..2. |
| Board.Column | TicTacToeClient/FrmTicTacToe.cs:556-588 | Cell n is in matrix column (n - 1) % 3, a column in 0..2. |
| Board.PositionDeterminesCell | TicTacToeClient/FrmTicTacToe.cs:556-588 | Grid entry n - 1 is matrix position (row, column) of cell n. Distinct cells occupy distinct positions. |
| Board.Stored | TicTacToeClient/FrmTicTacToe.cs:556-588 | Storing a move fills exactly the square of its cell and changes nothing else. A move for `None` writes nothing. Every filled square keeps holding a move for that square's own cell. |
| Board.StoredPointwise | TicTacToeClient/FrmTicTacToe.cs:556-588 | A grid that differs from the old one only by the move at its square is the stored grid. |
| Board.StoredTwice | TicTacToeClient/FrmTicTacToe.cs:613-617 | Storing the same move twice leaves the grid as storing it once. This happens when a mover stores its own move and then receives it back from the server. |
| Board.LineCells | TicTacToeClient/FrmTicTacToe.cs:353-409 | Every line covers three cells in 1..9. The cells are the rows {1,2,3}, {4,5,6}, {7,8,9}, the columns {1,4,7}, {2,5,8}, {3,6,9} and the diagonals {1,5,9}, {3,5,7}. |
| Board.FoundVectors | TicTacToeClient/FrmTicTacToe.cs:353-409 | The vectors the detector records, in recording order: the first held row, then the first held column, then each held diagonal, back before forward. At most four are recorded, and a row can only come first. |
| Board.FoundVectorsSound | TicTacToeClient/FrmTicTacToe.cs:353-409 | Every recorded vector is a line whose three cells all hold the mover's moves. |
| Board.OwnedLineFound | TicTacToeClient/FrmTicTacToe.cs:353-409 | If the mover holds a row, some row is recorded, and the same holds for columns. A held diagonal is recorded itself. |
| Board.FoundVectorsComplete | TicTacToeClient/FrmTicTacToe.cs:353-409 | Some vector is recorded iff the mover holds some complete line. |
| Board.FoundVectorsShape | TicTacToeClient/FrmTicTacToe.cs:353-409 | At most one row and at most one column are recorded, because the loops break. No vector is recorded twice, so there are at most four. |
| Board.StatusMeaning | TicTacToeClient/FrmTicTacToe.cs:411-430 | With no earlier vectors, the mover wins iff it holds a line. The game is drawn iff the board is full and no line is held, and it is in play otherwise. Won and drawn never both hold, because of the early return. |
| Board.Status | TicTacToeClient/FrmTicTacToe.cs:411-430 | The outcome from the recorded vectors: a win for the mover when any vector is recorded, otherwise a draw when all nine squares are filled, otherwise play goes on. A draw or play going on means no vector is recorded, and a draw means a full board. |
| Geometry.Between | TicTacToeClient/FrmTicTacToe.cs:674-678 | A point is in the box with corners `first` and `second` when both coordinates lie between the corners', borders included; only a box with `first` above and left of `second` contains any point. |
| Geometry.BetweenInclusive | TicTacToeClient/FrmTicTacToe.cs:674-678 | Both bounds of the box test are inclusive: corners and borders are inside, and a point one step outside is not. |
| Geometry.GetCellNumber | TicTacToeClient/FrmTicTacToe.cs:504-554 | A click gives `None` iff it lies outside [0, 300] x [0, 300]. Otherwise the cell's row is min(y / 100, 2) and its column is min(x / 100, 2), so a shared border belongs to the later box (x = 100 is the middle column). |
| Geometry.GetPointToPaint | TicTacToeClient/FrmTicTacToe.cs:303-344 | Cell n is painted at (50 + 100 col - 20, 50 + 100 row - 20). `None` is painted at (-20, -20). |
| Geometry.PaintPointRoundTrip | TicTacToeClient/FrmTicTacToe.cs:303-344 | Clicking where a cell's glyph is painted selects that same cell. |
| Client.TicTacToeForm.Cells | TicTacToeClient/FrmTicTacToe.cs:556-588 | Grid entry 3r + k is matrix square [r, k]. |
| Client.TicTacToeForm.constructor | TicTacToeClient/FrmTicTacToe.cs:14-31 | A new window has an empty 3x3 matrix, no win vectors, no calls made, not its turn, game not started, and the chosen side (set once, before the window loads). |
| Client.TicTacToeForm.Load | TicTacToeClient/FrmTicTacToe.cs:37-52 | On load the window calls Register with the chosen side and changes nothing else. |
| Client.TicTacToeForm.Store | TicTacToeClient/FrmTicTacToe.cs:556-588 | Cell n is written to [(n - 1) / 3, (n - 1) % 3], and `None` writes nothing. Every other square keeps its value, so the matrix read as a grid is `Stored` of the old grid. |
| Client.TicTacToeForm.HasValueInCell | TicTacToeClient/FrmTicTacToe.cs:463-502 | True iff the click lands in a cell whose square holds a move. A click in no cell gives false. |
| Client.TicTacToeForm.HeldBy | TicTacToeClient/FrmTicTacToe.cs:354-356 | The square test agrees with the grid's ownership of square [r, k]. |
| Client.TicTacToeForm.AllFilled | TicTacToeClient/FrmTicTacToe.cs:418-426 | The nine-square test holds iff the grid is full. |
| Client.TicTacToeForm.CheckGameStatus | TicTacToeClient/FrmTicTacToe.cs:348-431 | The vectors appended are exactly `FoundVectors` for the mover, and the outcome is `Status` of the grid and all recorded vectors. On a win or draw the window unregisters its side and closes silently. The matrix and turn flags are unchanged. |
| Client.TicTacToeForm.ScanRows | TicTacToeClient/FrmTicTacToe.cs:353-371 | The first row held by the mover, from the top, if any, is appended. |
| Client.TicTacToeForm.ScanColumns | TicTacToeClient/FrmTicTacToe.cs:374-392 | The first column held by the mover, from the left, if any, is appended. |
| Client.TicTacToeForm.ScanDiagonals | TicTacToeClient/FrmTicTacToe.cs:395-409 | Each diagonal the mover holds is appended, the back diagonal first. |
| Client.TicTacToeForm.Draw | TicTacToeClient/FrmTicTacToe.cs:433-446 | A draw unregisters this player's side and makes the window close without asking. |
| Client.TicTacToeForm.Won | TicTacToeClient/FrmTicTacToe.cs:448-461 | A win unregisters this player's side and makes the window close without asking. |
| Client.TicTacToeForm.Click | TicTacToeClient/FrmTicTacToe.cs:63-102 | A move is sent iff the game has started, it is this player's turn and the clicked cell is empty. In that case the move is stored first, then sent, then the turn is given up. Each other case gives its own message, and nothing changes. |
| Client.TicTacToeForm.Registered | TicTacToeClient/FrmTicTacToe.cs:594-611 | An early bird gets the turn. The allotted side is kept, and the reply says whether it differs from the choice. |
| Client.TicTacToeForm.Moved | TicTacToeClient/FrmTicTacToe.cs:613-622 | A received move is stored and the status is checked for its mover: the new vectors are `FoundVectors`, the outcome is `Status`, and a win or draw unregisters this side and makes the window close without asking. The turn flag is then set to the received one. |
| Client.TicTacToeForm.GameStarted | TicTacToeClient/FrmTicTacToe.cs:635-647 | The game-started flag is set, and nothing else changes. |
| Client.TicTacToeForm.Aborted | TicTacToeClient/FrmTicTacToe.cs:624-633 | The window closes without asking. It does not abort again. |
| Client.TicTacToeForm.RegistrationFailed | TicTacToeClient/FrmTicTacToe.cs:649-658 | The window closes without asking. |

## Left out

- Transport: the duplex channel mechanics are not modelled. This covers taking the caller's channel from the operation context, channel states, the channel factory, closing the proxy and the Faulted handler. Channels are opaque handles, the Opened ones are a set passed to each server operation, and outbound calls are records appended to an outbox.
- Concurrency: the service is one shared instance without locking. Each call is modelled as one atomic step, and interleavings are not modelled.
- Dictionary enumeration order: it is left unspecified. Each foreach may visit the keys in any order, and the properties hold for every order.
- Drawing and the user interface: painting borders, symbols and win vectors, message boxes, status-bar text, closing the window, the exit dialog that sends Abort, and application exit are not modelled. Message boxes appear only as return values.
- The console host program is not part of this model.
- The file defining the WinVector enumeration is not part of this model. Its member names are taken from their uses, and its NONE value is omitted because it is never recorded.
- A click inside the window but outside the 300 x 300 board, made on this player's turn, sends a move for cell `None`. The model keeps this as the code has it: nothing is stored and the turn is given up.
- The server performs no turn, occupancy or game-over checks and never resets a session after a win. The model adds none.
- Client.TicTacToeForm.constructor: the player's choice is a constructor argument that never changes. The window's constructor takes no argument; the choice is a nullable field set through a public property, and `Load` and `Registered` read its value, which throws when it was never set. The model assumes the choice is set once before the window loads; the property setter and the unset case are not modelled.
- Client.TicTacToeForm.CheckGameStatus: the row, column and diagonal scans are written as three helper methods called in order, rather than inline in one method body.
