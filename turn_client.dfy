/** The browser client of script_v2.js: besides its local chess.js game it
    tracks its own colour and whether it believes it is its turn, and gates
    dragging on that belief. */
module TurnClient {
  import opened Rules

  /** The `move` field of a frame: missing (undefined), null, or a value
      chess.js `move()` understands. */
  datatype MoveField = Absent | NullMove | Given(request: MoveRequest)

  /** A frame after `JSON.parse`; null throws on the first property access,
      any other value answers undefined (None) for a missing field. */
  datatype Data =
    | JNull
    | JObject(typ: Option<string>, color: Option<string>, move: MoveField)

  /** `event.data`: text that `JSON.parse` rejects, or a parsed value. */
  datatype Frame = NotJson(text: string) | Json(data: Data)

  predicate Typed(f: Frame, t: string)
  {
    f.Json? && f.data.JObject? && f.data.typ == Some(t)
  }

  /** The `{type: 'move', move}` message a drop sends. */
  datatype Outgoing = MoveMessage(move: MoveRequest)

  /** `piece.search(/^c/) !== -1`: the piece code starts with `c`. */
  predicate StartsWith(piece: string, c: char)
  {
    |piece| > 0 && piece[0] == c
  }

  /** A board piece code: a colour letter followed by the piece. */
  predicate PieceCode(piece: string)
  {
    StartsWith(piece, 'w') || StartsWith(piece, 'b')
  }

  /** The promotion piece every local drop asks for. */
  const Promotion: string := "q"

  class Client {
    const rules: Engine
    var game: Game
    /** 'white' or 'black' from 'game_start'; None is null. */
    var myColor: Option<string>
    var isMyTurn: bool
    /** Whether the board has been created (it is null until 'game_start'). */
    var hasBoard: bool
    /** Every message sent to the server, in order. */
    ghost var sent: seq<Outgoing>

    /** The client believes it may move only once a board exists. */
    ghost predicate Valid()
      reads this
    {
      isMyTurn ==> hasBoard
    }

    constructor (rules: Engine)
      ensures this.rules == rules && game == NewGame(rules) && myColor == None
      ensures !isMyTurn && !hasBoard && sent == [] && Valid()
    {
      this.rules := rules;
      game := NewGame(rules);
      myColor := None;
      isMyTurn := false;
      hasBoard := false;
      sent := [];
    }

    /** `onDragStart` (script_v2.js:17-32): refused when the game is over,
        when it is not this client's turn, or for a piece of the side not
        to move. It does not look at `myColor`. */
    function OnDragStart(source: string, piece: string): (allowed: bool)
      reads this
      ensures allowed ==> !rules.isGameOver(game.pos) && isMyTurn
      ensures PieceCode(piece) ==>
                (allowed <==> !rules.isGameOver(game.pos) && isMyTurn && piece[0] == Letter(rules.turn(game.pos)))
    {
      if rules.isGameOver(game.pos) then false
      else if !isMyTurn then false
      else
        var turn := Letter(rules.turn(game.pos));
        !((turn == 'w' && StartsWith(piece, 'b')) || (turn == 'b' && StartsWith(piece, 'w')))
    }

    /** `onDrop` (script_v2.js:34-54): an illegal drop snaps back, sends
        nothing and keeps the turn; a legal one is played with a queen
        promotion, sent as a 'move' message, and gives the turn away, so no
        piece can be dragged until the server answers. */
    method OnDrop(source: string, target: string) returns (snapback: bool)
      requires Valid()
      modifies this`game, this`isMyTurn, this`sent
      ensures Valid()
      ensures var m := Squares(source, target, Some(Promotion));
              && (snapback <==> rules.move(old(game).pos, m).None?)
              && (snapback ==> game == old(game) && isMyTurn == old(isMyTurn) && sent == old(sent))
              && (!snapback ==> Play(rules, old(game), m) == Some(game) && !isMyTurn && sent == old(sent) + [MoveMessage(m)])
      ensures !snapback ==> forall s, p :: !OnDragStart(s, p)
    {
      var m := Squares(source, target, Some(Promotion));
      var move := Play(rules, game, m);
      if move.None? {
        return true;
      }
      game := move.value;
      sent := sent + [MoveMessage(m)];
      isMyTurn := false;
      return false;
    }

    /** chess.js 0.x `move(null)` takes its object branch and reads
        `null.from` for the first legal move, so it throws exactly when the
        position has one; with none it returns null. An absent move is
        neither a string nor an object and gives null. */
    predicate ThrowsOnMove(f: MoveField)
      reads this
    {
      f == NullMove && rules.hasLegalMove(game.pos)
    }

    /** `ws.onmessage` (script_v2.js:86-143); a thrown error is caught and
        ends the handler. */
    method OnMessage(frame: Frame)
      requires Valid()
      modifies this`game, this`myColor, this`isMyTurn, this`hasBoard
      ensures Valid()
      // unparsable text or null: caught, nothing changes
      ensures frame.NotJson? || frame == Json(JNull) ==>
                game == old(game) && myColor == old(myColor) && isMyTurn == old(isMyTurn) && hasBoard == old(hasBoard)
      // 'game_start': take the colour, white moves first, build the board;
      // the local game itself is not reset
      ensures Typed(frame, "game_start") ==>
                && myColor == frame.data.color && (isMyTurn <==> myColor == Some("white"))
                && hasBoard && game == old(game)
      // the opponent's 'move' is applied and hands the turn to this client;
      // before any board exists the board update throws after the game changed
      ensures Typed(frame, "move") && !old(ThrowsOnMove(frame.data.move)) ==>
                && game == (if frame.data.move.Given? then PlayOrKeep(rules, old(game), frame.data.move.request) else old(game))
                && myColor == old(myColor) && hasBoard == old(hasBoard)
                && isMyTurn == old(hasBoard)
      // a null move throws inside chess.js while a legal move exists: caught,
      // nothing changes and the turn is not handed over
      ensures Typed(frame, "move") && old(ThrowsOnMove(frame.data.move)) ==>
                game == old(game) && myColor == old(myColor) && isMyTurn == old(isMyTurn) && hasBoard == old(hasBoard)
      // 'opponent_disconnected' only takes the turn away
      ensures Typed(frame, "opponent_disconnected") ==>
                !isMyTurn && game == old(game) && myColor == old(myColor) && hasBoard == old(hasBoard)
      // 'info' and unknown types change nothing
      ensures frame.Json? && frame.data.JObject? &&
              frame.data.typ !in {Some("game_start"), Some("move"), Some("opponent_disconnected")} ==>
                game == old(game) && myColor == old(myColor) && isMyTurn == old(isMyTurn) && hasBoard == old(hasBoard)
    {
      match frame
      case NotJson(_) =>
        return;
      case Json(data) =>
        if data.JNull? {
          return;
        }
        if data.typ == Some("game_start") {
          myColor := data.color;
          isMyTurn := myColor == Some("white");
          hasBoard := true;
        } else if data.typ == Some("move") {
          if ThrowsOnMove(data.move) {
            return;
          }
          if data.move.Given? {
            game := PlayOrKeep(rules, game, data.move.request);
          }
          if !hasBoard {
            return;
          }
          isMyTurn := true;
        } else if data.typ == Some("opponent_disconnected") {
          isMyTurn := false;
        }
    }
  }
}
