/** The browser client of script.js: a local chess.js game mirrored from the
    server, the colour this client plays, the drag guard, the drop rule and
    the dispatcher for incoming WebSocket frames. */
module BoardClient {
  import opened Rules

  /** A frame after `JSON.parse`. Property access on any parsed value other
      than null yields a field or undefined (None), so numbers, strings and
      arrays behave as an object with no fields; on null it throws. */
  datatype Data =
    | JNull
    | JObject(typ: Option<string>, color: Option<string>, from: Option<string>,
              to: Option<string>, promotion: Option<string>)

  /** `event.data`: text that `JSON.parse` rejects, or a parsed value. */
  datatype Frame = NotJson(text: string) | Json(data: Data)

  /** JavaScript truthiness of a string field: present and not "". */
  predicate Truthy(v: Option<string>)
  {
    v.Some? && v.value != ""
  }

  /** A frame whose parsed `type` is `t`. */
  predicate Typed(f: Frame, t: string)
  {
    f.Json? && f.data.JObject? && f.data.typ == Some(t)
  }

  /** The `type` values the dispatcher recognises. */
  const Commands: set<string> := {"playercolor", "gamereset", "boardclear", "move_undone"}

  /** A parsed object whose `type` is none of the commands: a move if it has
      both squares (script.js:80-86). */
  predicate Untyped(f: Frame)
  {
    f.Json? && f.data.JObject? && (f.data.typ.None? || f.data.typ.value !in Commands)
  }

  /** The promotion piece every local drop asks for. */
  const Promotion: string := "q"

  class Client {
    const rules: Engine
    var game: Game
    /** 'w', 'b', 'spectator' or whatever the server sent; None is null. */
    var playerColor: Option<string>
    /** Every move sent to the server, in order. */
    ghost var sent: seq<MoveRequest>

    constructor (rules: Engine)
      ensures this.rules == rules && game == NewGame(rules) && playerColor == None && sent == []
    {
      this.rules := rules;
      game := NewGame(rules);
      playerColor := None;
      sent := [];
    }

    /** `onDragStart` (script.js:103-112): a drag may start only in a game
        that is not over and only for the client whose colour letter is the
        side to move; a spectator or a client without a colour never drags. */
    function OnDragStart(source: string, piece: string): (allowed: bool)
      reads this
      ensures allowed <==> !rules.isGameOver(game.pos) && playerColor == Some([Letter(rules.turn(game.pos))])
      ensures playerColor != Some("w") && playerColor != Some("b") ==> !allowed
    {
      var turn := Letter(rules.turn(game.pos));
      !(rules.isGameOver(game.pos)
        || (turn == 'w' && playerColor != Some("w"))
        || (turn == 'b' && playerColor != Some("b")))
    }

    /** `onDrop` (script.js:115-128): an illegal drop snaps back and sends
        nothing; a legal one is played locally, promoting to a queen, and
        that same move is sent to the server. */
    method OnDrop(source: string, target: string) returns (snapback: bool)
      modifies this`game, this`sent
      ensures var m := Squares(source, target, Some(Promotion));
              && (snapback <==> rules.move(old(game).pos, m).None?)
              && (snapback ==> game == old(game) && sent == old(sent))
              && (!snapback ==> Play(rules, old(game), m) == Some(game) && sent == old(sent) + [m])
    {
      var m := Squares(source, target, Some(Promotion));
      var move := Play(rules, game, m);
      if move.None? {
        return true;
      }
      game := move.value;
      sent := sent + [m];
      return false;
    }

    /** `socket.onmessage` (script.js:30-88). */
    method OnMessage(frame: Frame)
      modifies this`game, this`playerColor
      // not JSON: the text is loaded as a FEN position, with no dispatch
      ensures frame.NotJson? ==> game == Load(rules, old(game), frame.text) && playerColor == old(playerColor)
      // a null value throws before the dispatch
      ensures frame == Json(JNull) ==> game == old(game) && playerColor == old(playerColor)
      // 'playercolor' takes the colour and leaves the position alone
      ensures Typed(frame, "playercolor") ==> playerColor == frame.data.color && game == old(game)
      // 'gamereset', 'boardclear', 'move_undone' act on the game only
      ensures Typed(frame, "gamereset") ==> game == NewGame(rules) && playerColor == old(playerColor)
      ensures Typed(frame, "boardclear") ==> game == Cleared(rules) && playerColor == old(playerColor)
      ensures Typed(frame, "move_undone") ==> game == Undo(old(game)) && playerColor == old(playerColor)
      // anything else is a move when it names both squares, otherwise ignored
      ensures Untyped(frame) ==> playerColor == old(playerColor)
      ensures Untyped(frame) && !(Truthy(frame.data.from) && Truthy(frame.data.to)) ==> game == old(game)
      ensures Untyped(frame) && Truthy(frame.data.from) && Truthy(frame.data.to) ==>
                game == PlayOrKeep(rules, old(game), Squares(frame.data.from.value, frame.data.to.value, frame.data.promotion))
    {
      match frame
      case NotJson(text) =>
        game := Load(rules, game, text);
      case Json(data) =>
        if data.JNull? {
          return;
        }
        var typ := data.typ;
        if typ == Some("playercolor") {
          playerColor := data.color;
        } else if typ == Some("gamereset") {
          game := NewGame(rules);
        } else if typ == Some("boardclear") {
          game := Cleared(rules);
        } else if typ == Some("move_undone") {
          game := Undo(game);
        } else if Truthy(data.from) && Truthy(data.to) {
          game := PlayOrKeep(rules, game, Squares(data.from.value, data.to.value, data.promotion));
        }
    }
  }

  /** A legal drop followed by the server's 'move_undone' puts the client
      back exactly where it was before the drop. */
  method DropThenUndo(c: Client, source: string, target: string)
    modifies c
    ensures c.playerColor == old(c.playerColor)
    ensures c.rules.move(old(c.game).pos, Squares(source, target, Some(Promotion))).Some? ==> c.game == old(c.game)
  {
    var snapback := c.OnDrop(source, target);
    if !snapback {
      c.OnMessage(Json(JObject(Some("move_undone"), None, None, None, None)));
    }
  }
}
