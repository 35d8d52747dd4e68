# Two-player chess relay: room and turn-gating model

A Dafny model of a small real-time chess relay and its two browser clients.

- **Server** (`server.js`). A socket.io server keeps three module-level variables: `players`, a map from socket id to colour; `playerSockets`, the connected players in arrival order; and `currentGame`, a chess.js game or null. Four handlers change them: admission of a new connection, `move`, `restartgame` and `disconnect`. A connection becomes a player while fewer than two players are registered, and otherwise a spectator. So after a player leaves, the next arrival takes a seat. Each handler runs to completion before the next one starts, so each is one atomic step.
- **`script.js` client.** It mirrors the server's game in a local chess.js object. It only lets its own colour drag, plays legal drops locally and sends them. Incoming frames go through a dispatcher: a frame that is not JSON is a FEN position; a frame whose `type` is `playercolor`, `gamereset`, `boardclear` or `move_undone` is a command; any other parsed frame with both `from` and `to` is a move.
- **`script_v2.js` client.** It tracks `myColor` and an `isMyTurn` flag. The flag is driven by `game_start`, incoming `move`, `opponent_disconnected` and the client's own drops, and it gates dragging.

The chess.js library is modelled as a value `Rules.Engine` whose fields are uninterpreted functions over an opaque `Position`: start and empty positions, `turn`, a partial `move` that takes a `{from, to, promotion}` object or a SAN string, whether a legal move exists, `isGameOver`, `isCheckmate`, `isDraw`, `fen` and `load`. The ghost predicate `Rules.Coherent` states the engine facts some lemmas need: mate and draw are terminal, and an accepted move hands the turn to the other side. A browser's chess.js object is `Rules.Game`, a position plus its undo stack.

Each server handler is specified as a function on a `Room.RoomState` value. The function returns the new state and the messages sent, each addressed to one socket (`socket.emit`) or to everyone (`io.emit`). The class `Room.Server` holds the three variables and a ghost outbox, and its methods run the handlers imperatively against those functions. The room invariant `Room.Valid` holds after every handler. It says:

- there are at most two players;
- `players` and `playerSockets` hold the same ids, each once;
- the second player is always black;
- a game exists exactly when two players are registered.

The last point means a spectator always arrives at a running game. So its `init` always says `gameStarted: true`, and it always receives `boardstate`.

The colour rule is kept as written: the colour depends on the player count, not on which seat is free (server.js:29). If white leaves and black stays, the next arrival is black too. `Room.TwoBlackPlayers` exhibits that room, and `Room.BlackRoomIsStuck` shows that in such a room no move is ever taken while white is to move.

What server.js does and does not do:

- There is no seat swap, no move history and no game phase on the server.
- A player's disconnect during a running game drops the game (`currentGame = null`) and tells everyone. With no game running, nothing is sent. The board is neither reset nor kept for a reconnecting player.
- Out-of-turn moves are ignored silently.
- `restartgame` is honoured from any connection, spectators included, whenever two players are registered.

## Model

| member | source | states |
|---|---|---|
| Rules.Name | server.js:64 | the first letter of a stored colour name is the engine's letter for that side, and no other side has that letter, so the turn check compares colours |
| Rules.Play | script.js:117-124 | an engine move is accepted exactly when the engine returns a position; the game then holds that position and one `undo` returns exactly to the game before the move |
| Rules.PlayOrKeep | script.js:80-86 | a move whose null result is ignored leaves the game unchanged when rejected; when accepted it is undone by one `undo` |
| Rules.Load | script.js:34-41 | a malformed FEN leaves the game untouched; a well-formed one becomes the position with an empty undo history |
| Room.Without | server.js:103 | filtering an id out keeps every other socket, drops that id, keeps the list duplicate-free and shortens it by one when the id was present |
| Room.WithoutConcat | server.js:103 | the filter keeps order: filtering a concatenation is the concatenation of the filtered parts |
| Room.Connect | server.js:28-56 | admission keeps the room valid; a seat is given exactly while fewer than two players are registered, white exactly when none is, the new player is appended to the arrival order, and nobody else's seat changes; a spectator changes nothing; the private init carries the role and whether a game now exists; the game starts, broadcasting `gamestart` with the start FEN, exactly when this admission fills the second seat; a spectator is shown the board only if a game exists; only the new socket gets private messages |
| Room.SpectatorJoinsRunningGame | server.js:46-55 | under the room invariant a spectator always meets a running game: its init says `gameStarted: true` and it is sent `boardstate` with the current FEN |
| Room.EndingOf | server.js:71-80 | the game-over report is mate exactly when the engine reports checkmate, with the side not to move as the winner, and a draw exactly when it is not mate but a draw |
| Room.HandleMove | server.js:59-85 | seats never change on a move; with no game, from a non-player or out of turn the move is ignored with no message; a rejected move leaves the game and sends `invalidmove` to the sender only; an accepted move installs the new position and broadcasts `move` with its FEN, followed by `gameover` exactly when the game ended |
| Room.Restart | server.js:88-94 | a restart sends something exactly when two players are registered, and then resets the game to the start and broadcasts `gamestart`; otherwise nothing changes |
| Room.Disconnect | server.js:97-112 | afterwards the id is neither a player nor in the socket list; a spectator's departure changes nothing; a player is removed from both records while the other keeps its colour, the game is dropped, and `opponent_disconnected` is broadcast exactly when a game existed |
| Room.Apply | server.js:23-112 | the room stays valid after any handler the event selects (admission, `move`, `restartgame`, `disconnect`) |
| Room.Run | server.js:23-112 | any sequence of handler invocations, with fresh ids on connection, keeps the room valid: at most two players, each listed once in both records, the second one black, and a game exactly when there are two |
| Room.TwoBlackPlayers | server.js:29-103 | white joins, black joins, white leaves, a third connection joins: the room then holds two black players |
| Room.BlackRoomIsStuck | server.js:60-64 | in a room whose players are all black, every move request while white is to move is ignored |
| Room.NoDoubleMove | server.js:64-69 | after a player's accepted move, a further move from the same player is ignored until the opponent has moved |
| Room.MateWinnerIsMover | server.js:65-79 | a mating move is broadcast and then announced as a win for the colour of the player who made it |
| Room.Server.constructor | server.js:16-18 | the server starts with no players, no sockets, no game and nothing sent |
| Room.Server.OnConnection | server.js:28-56 | the admission branch updates the variables and the outbox exactly as `Room.Connect` specifies and keeps the room invariant |
| Room.Server.OnMove | server.js:59-85 | the move handler updates the game and the outbox exactly as `Room.HandleMove` specifies and keeps the room invariant |
| Room.Server.OnRestartGame | server.js:88-94 | the restart handler follows `Room.Restart` and keeps the room invariant |
| Room.Server.OnDisconnect | server.js:97-112 | the disconnect handler follows `Room.Disconnect` and keeps the room invariant |
| BoardClient.Client.constructor | script.js:12-14 | the client starts with a fresh game and no colour |
| BoardClient.Client.OnDragStart | script.js:103-112 | a drag is allowed exactly when the game is not over and the client's colour is the side-to-move letter, so a spectator or a client without a colour never drags |
| BoardClient.Client.OnDrop | script.js:115-128 | an illegal drop snaps back, leaves the game and sends nothing; a legal drop is played locally with a queen promotion and that same move is sent |
| BoardClient.Client.OnMessage | script.js:30-88 | a non-JSON frame is loaded as FEN with no dispatch; null changes nothing; `playercolor` sets the colour and leaves the game; `gamereset` and `boardclear` give the start and the empty game; `move_undone` undoes one move; any other frame is played as a move only when both `from` and `to` are present, and it never changes the colour |
| BoardClient.DropThenUndo | script.js:72-127 | a legal drop followed by the server's `move_undone` returns the client to the game it had before the drop |
| TurnClient.Client.constructor | script_v2.js:8-11 | the client starts with a fresh game, no colour, no board and not its turn |
| TurnClient.Client.OnDragStart | script_v2.js:17-32 | a drag requires a game not over and the client's turn; for a piece code it is allowed exactly when the piece's colour letter is the side to move |
| TurnClient.Client.OnDrop | script_v2.js:34-54 | an illegal drop snaps back, sends nothing and keeps the turn; a legal one is played with a queen promotion, sent as a `move` message and clears the turn, after which no piece can be dragged |
| TurnClient.Client.OnMessage | script_v2.js:86-143 | unparsable text and null change nothing; `game_start` takes the colour, gives the turn exactly to white and creates the board without resetting the game; `move` applies the opponent's move and gives the turn to this client, except before any board exists; a null `move` while the position has a legal move throws inside chess.js and changes nothing; `opponent_disconnected` only clears the turn; `info` and unknown types change nothing; the client never believes it has the turn without a board |

## Left out

- Chess rules: move legality, check, mate, draw detection and FEN generation belong to chess.js. They are uninterpreted fields of `Rules.Engine`.
- chess.js failure mode: a rejected move is modelled as a null result. The library version that throws instead is not modelled. `load` on a malformed FEN is likewise modelled as a refusal that changes nothing.
- Transport and hosting: Express static serving, the HTTP server, socket.io wiring, `listen`, and the WebSocket construction in both clients. Sends are appends to ghost outboxes.
- The server's try/catch around handler registration (server.js:24-116) and all console logging.
- Message texts: the Russian texts of `gameover`, `invalidmove` and `opponent_disconnected` are not modelled. `Room.Ending` records which of the three `gameover` texts is sent, with the winner on mate.
- Room.Connect: requires a connecting id that is not already registered. socket.io ids are unique per connection, and this requirement is what keeps each socket listed once.
- BoardClient.Client.OnDrop: sends the move request `{from, to, promotion: 'q'}`. The source sends chess.js's result object for that move, which adds fields such as SAN and flags that chess.js computes.
- TurnClient.Client.OnDrop: same simplification as the previous line, for the move inside `{type: 'move', move}`.
- Parsed JSON fields are modelled as strings or absent. Values of other JSON types in `color`, `from`, `to` or `promotion` are not modelled.
- Room.HandleMove: `moveData` is a `{from, to, promotion}` object or a SAN string. A null or otherwise malformed `moveData` makes the chess.js version the server uses throw inside the handler, and that path is not modelled.
- DOM and rendering: the Chessboard.js board (`position`, `orientation`, `start`, `clear`, `flip`, `onSnapEnd`), `updateStatus`, the `info` status text, and the title and status elements. In script_v2.js the only board fact kept is whether the board exists.
- TurnClient.Client.OnMessage: assumes the swap-colours button exists. If it did not, `game_start` would throw after setting the colour and the turn, and before creating the board.
- The button handlers of script.js (script.js:169-183) and script_v2.js (script_v2.js:154-157) only send fixed commands. server.js does not handle those commands.
- The three files speak different protocols, so the client models are not composed with the server model and no end-to-end property is claimed.
