/** The room of server.js: who holds a seat, which socket ids are players,
    and the one authoritative game. Each socket.io handler runs to completion
    before the next one starts, so every handler is one atomic step. The
    steps are specified as functions on a `RoomState` value (with the
    messages they send); the `Server` class holds the module-level variables
    and runs the handlers imperatively against those functions. */
module Room {
  import opened Rules

  /** `socket.id`, unique per connection. */
  type SocketId = string

  /** The `color` of an `init` reply: a seat, or 'spectator'. */
  datatype Role = Seat(color: Side) | Spectator

  /** `socket.emit` reaches one connection, `io.emit` all of them. */
  datatype Recipient = One(id: SocketId) | All

  /** The text of a `gameover` message: mate with its winner, a draw, or
      any other end. */
  datatype Ending = Mate(winner: Side) | Drawn | Ended

  /** The events the server emits, with what they carry. */
  datatype Payload =
    | Init(role: Role, gameStarted: bool)   // 'init'
    | GameStart(fen: string)                // 'gamestart'
    | BoardState(fen: string)               // 'boardstate'
    | Moved(fen: string)                    // 'move'
    | GameOver(ending: Ending)              // 'gameover'
    | InvalidMove                           // 'invalidmove'
    | OpponentDisconnected                  // 'opponent_disconnected'

  datatype Message = Message(to: Recipient, payload: Payload)

  /** `players`, `playerSockets` (by socket id) and `currentGame` (null as None). */
  datatype RoomState = RoomState(
    players: map<SocketId, Side>,
    playerSockets: seq<SocketId>,
    currentGame: Option<Position>)

  /** The state a handler leaves and the messages it sent, in order. */
  datatype Step = Step(room: RoomState, sent: seq<Message>)

  /** The state when the server starts. */
  const Initial: RoomState := RoomState(map[], [], None)

  predicate Distinct(s: seq<SocketId>)
  {
    forall i, j :: 0 <= i < j < |s| ==> s[i] != s[j]
  }

  /** What every handler keeps: at most two players, each socket listed once
      and exactly the sockets that hold a colour; whoever sits in the second
      place is black (a colour follows the player count); and a game exists
      exactly when both places are taken. */
  ghost predicate Valid(r: RoomState)
  {
    && |r.playerSockets| <= 2
    && Distinct(r.playerSockets)
    && (forall x :: x in r.players <==> x in r.playerSockets)
    && (forall i :: 1 <= i < |r.playerSockets| ==> r.playerSockets[i] in r.players && r.players[r.playerSockets[i]] == Black)
    && (r.currentGame.Some? <==> |r.playerSockets| == 2)
  }

  /** Every message addressed to a single connection goes to `id`. */
  predicate OnlyTo(sent: seq<Message>, id: SocketId)
  {
    forall k :: 0 <= k < |sent| && sent[k].to.One? ==> sent[k].to.id == id
  }

  /** The colour a new player gets: white only in an empty room. */
  function ColorFor(count: nat): Side
  {
    if count == 0 then White else Black
  }

  /** `playerSockets.filter(s => s.id !== id)`. */
  function Without(s: seq<SocketId>, id: SocketId): (r: seq<SocketId>)
    ensures forall x :: x in r <==> x in s && x != id
    ensures Distinct(s) ==> Distinct(r)
    ensures Distinct(s) && id in s ==> |r| == |s| - 1
    ensures id !in s ==> r == s
  {
    if s == [] then []
    else
      var rest := Without(s[1..], id);
      assert Distinct(s) ==> Distinct(s[1..]) && s[0] !in s[1..];
      if s[0] == id then rest else [s[0]] + rest
  }

  /** Filtering keeps order: it distributes over concatenation. */
  lemma {:induction false} WithoutConcat(a: seq<SocketId>, b: seq<SocketId>, id: SocketId)
    ensures Without(a + b, id) == Without(a, id) + Without(b, id)
  {
    if a != [] {
      assert (a + b)[0] == a[0] && (a + b)[1..] == a[1..] + b;
      WithoutConcat(a[1..], b, id);
    } else {
      assert a + b == b;
    }
  }

  /** The connection handler's admission branch (server.js:28-56). */
  function Connect(e: Engine, r: RoomState, id: SocketId): (s: Step)
    requires Valid(r) && id !in r.players
    ensures Valid(s.room)
    // a seat is given only while fewer than two players are registered,
    // white exactly when nobody is, and nobody else's seat changes
    ensures id in s.room.players <==> |r.playerSockets| < 2
    ensures id in s.room.players ==> s.room.players[id] == (if r.players == map[] then White else Black)
    ensures s.room.players - {id} == r.players
    // a new player joins the end of the arrival order
    ensures id in s.room.players ==> s.room.playerSockets == r.playerSockets + [id]
    // a spectator changes nothing
    ensures |r.playerSockets| >= 2 ==> s.room == r
    // the private init reply: the role, and whether a game now exists
    ensures |s.sent| >= 1 && s.sent[0].to == One(id)
    ensures s.sent[0].payload
         == Init(if id in s.room.players then Seat(s.room.players[id]) else Spectator, s.room.currentGame.Some?)
    // the game starts when, and only when, this admission fills the room
    ensures s.room.currentGame != r.currentGame <==> |r.playerSockets| == 1
    ensures |r.playerSockets| == 1 ==>
              s.room.currentGame == Some(e.start) && s.sent[1..] == [Message(All, GameStart(e.fen(e.start)))]
    ensures |r.playerSockets| == 0 ==> |s.sent| == 1
    ensures |r.playerSockets| >= 2 ==>
              s.sent[1..] == if r.currentGame.Some? then [Message(One(id), BoardState(e.fen(r.currentGame.value)))] else []
    ensures OnlyTo(s.sent, id)
  {
    assert r.playerSockets == [] ==> r.players.Keys == {};
    assert r.playerSockets != [] ==> r.playerSockets[0] in r.players;
    if |r.playerSockets| < 2 then
      var color := ColorFor(|r.playerSockets|);
      var players := r.players[id := color];
      var sockets := r.playerSockets + [id];
      var init := Message(One(id), Init(Seat(color), |sockets| == 2));
      if |sockets| == 2 then
        var game := e.start;
        Step(RoomState(players, sockets, Some(game)), [init, Message(All, GameStart(e.fen(game)))])
      else
        Step(RoomState(players, sockets, r.currentGame), [init])
    else
      var init := Message(One(id), Init(Spectator, r.currentGame != None));
      if r.currentGame.Some? then
        Step(r, [init, Message(One(id), BoardState(e.fen(r.currentGame.value)))])
      else
        Step(r, [init])
  }

  /** A spectator only ever arrives when both seats are taken, hence at a
      running game: its init says the game has started and it is always
      shown the board. */
  lemma SpectatorJoinsRunningGame(e: Engine, r: RoomState, id: SocketId)
    requires Valid(r) && id !in r.players && |r.playerSockets| >= 2
    ensures r.currentGame.Some?
    ensures Connect(e, r, id)
         == Step(r, [Message(One(id), Init(Spectator, true)), Message(One(id), BoardState(e.fen(r.currentGame.value)))])
  {
  }

  /** Whether `id` is the player whose colour is to move in a running game. */
  predicate HasTurn(e: Engine, r: RoomState, id: SocketId)
  {
    r.currentGame.Some? && id in r.players && r.players[id] == e.turn(r.currentGame.value)
  }

  /** The `gameover` text after a move: on mate the winner is the side that
      is not to move. */
  function EndingOf(e: Engine, p: Position): (d: Ending)
    ensures d.Mate? <==> e.isCheckmate(p)
    ensures d.Mate? ==> d.winner != e.turn(p)
    ensures d == Drawn <==> !e.isCheckmate(p) && e.isDraw(p)
  {
    if e.isCheckmate(p) then Mate(Opposite(e.turn(p)))
    else if e.isDraw(p) then Drawn
    else Ended
  }

  /** The 'move' handler (server.js:59-85). */
  function HandleMove(e: Engine, r: RoomState, id: SocketId, m: MoveRequest): (s: Step)
    requires Valid(r)
    ensures Valid(s.room)
    // seats never change on a move
    ensures s.room.players == r.players && s.room.playerSockets == r.playerSockets
    // no game, not a player, or not this player's turn: ignored without a word
    ensures !HasTurn(e, r, id) ==> s == Step(r, [])
    // rejected by the engine: the game stays, only the sender hears of it
    ensures HasTurn(e, r, id) && e.move(r.currentGame.value, m).None? ==>
              s == Step(r, [Message(One(id), InvalidMove)])
    // accepted: the new position is broadcast, then the end of the game if it ended
    ensures HasTurn(e, r, id) && e.move(r.currentGame.value, m).Some? ==>
              var next := e.move(r.currentGame.value, m).value;
              && s.room.currentGame == Some(next)
              && |s.sent| == (if e.isGameOver(next) then 2 else 1)
              && s.sent[0] == Message(All, Moved(e.fen(next)))
              && (e.isGameOver(next) ==> s.sent[1] == Message(All, GameOver(EndingOf(e, next))))
    ensures OnlyTo(s.sent, id)
  {
    if r.currentGame.None? then Step(r, [])
    else if id !in r.players then Step(r, [])
    else
      var game := r.currentGame.value;
      if Name(r.players[id])[0] == Letter(e.turn(game)) then
        match e.move(game, m)
        case None => Step(r, [Message(One(id), InvalidMove)])
        case Some(next) =>
          var moved := [Message(All, Moved(e.fen(next)))];
          if e.isGameOver(next) then
            Step(r.(currentGame := Some(next)), moved + [Message(All, GameOver(EndingOf(e, next)))])
          else
            Step(r.(currentGame := Some(next)), moved)
      else Step(r, [])
  }

  /** The 'restartgame' handler (server.js:88-94); any connection may ask. */
  function Restart(e: Engine, r: RoomState): (s: Step)
    requires Valid(r)
    ensures Valid(s.room)
    ensures s.room.players == r.players && s.room.playerSockets == r.playerSockets
    // honoured exactly when two players are registered
    ensures s.sent != [] <==> |r.playerSockets| == 2
    ensures |r.playerSockets| == 2 ==>
              s.room.currentGame == Some(e.start) && s.sent == [Message(All, GameStart(e.fen(e.start)))]
    ensures |r.playerSockets| != 2 ==> s.room == r
  {
    if |r.playerSockets| == 2 then
      var game := e.start;
      Step(r.(currentGame := Some(game)), [Message(All, GameStart(e.fen(game)))])
    else
      Step(r, [])
  }

  /** The 'disconnect' handler (server.js:97-112). */
  function Disconnect(r: RoomState, id: SocketId): (s: Step)
    requires Valid(r)
    ensures Valid(s.room)
    ensures id !in s.room.players && id !in s.room.playerSockets
    // a spectator's departure changes nothing
    ensures id !in r.players ==> s == Step(r, [])
    // a player leaves both records, the other player keeps its colour, and
    // a running game is dropped with everyone told
    ensures id in r.players ==>
              && s.room.players == r.players - {id}
              && |s.room.playerSockets| == |r.playerSockets| - 1
              && s.room.currentGame == None
              && s.sent == (if r.currentGame.Some? then [Message(All, OpponentDisconnected)] else [])
  {
    if id in r.players then
      var players := r.players - {id};
      var sockets := Without(r.playerSockets, id);
      if r.currentGame.Some? then
        Step(RoomState(players, sockets, None), [Message(All, OpponentDisconnected)])
      else
        Step(RoomState(players, sockets, r.currentGame), [])
    else
      Step(r, [])
  }

  /** One handler invocation: the handlers that server.js registers per
      socket (server.js:59, 88, 97) and the connection handler itself. */
  datatype Event =
    | Connected(id: SocketId)
    | MoveReceived(id: SocketId, move: MoveRequest)
    | RestartRequested(id: SocketId)
    | Disconnected(id: SocketId)

  /** socket.io never reuses an id, so a connecting id is not registered. */
  predicate Admissible(r: RoomState, ev: Event)
  {
    ev.Connected? ==> ev.id !in r.players
  }

  /** Routes an event to its handler, as the `socket.on` registrations do. */
  function Apply(e: Engine, r: RoomState, ev: Event): (s: Step)
    requires Valid(r) && Admissible(r, ev)
    ensures Valid(s.room)
  {
    match ev
    case Connected(id) => Connect(e, r, id)
    case MoveReceived(id, m) => HandleMove(e, r, id, m)
    case RestartRequested(_) => Restart(e, r)
    case Disconnected(id) => Disconnect(r, id)
  }

  /** Every connecting id in `evs` is fresh when it connects. */
  predicate AdmissibleRun(e: Engine, r: RoomState, evs: seq<Event>)
    requires Valid(r)
    decreases |evs|
  {
    evs == [] || (Admissible(r, evs[0]) && AdmissibleRun(e, Apply(e, r, evs[0]).room, evs[1..]))
  }

  /** The handlers run one after another; the room stays valid throughout. */
  function Run(e: Engine, r: RoomState, evs: seq<Event>): (s: Step)
    requires Valid(r) && AdmissibleRun(e, r, evs)
    ensures Valid(s.room)
    decreases |evs|
  {
    if evs == [] then Step(r, [])
    else
      var first := Apply(e, r, evs[0]);
      var rest := Run(e, first.room, evs[1..]);
      Step(rest.room, first.sent + rest.sent)
  }

  /** The colour rule counts players instead of looking for the free seat:
      if white leaves while black stays, the next arrival is black too, and
      the room then holds two black players. */
  lemma TwoBlackPlayers(e: Engine)
    ensures var r1 := Connect(e, Initial, "a").room;
            var r2 := Connect(e, r1, "b").room;
            var r3 := Disconnect(r2, "a").room;
            "c" !in r3.players && Connect(e, r3, "c").room.players == map["b" := Black, "c" := Black]
  {
  }

  /** In a room of two black players no move while white is to move is ever
      taken: every move request is ignored. */
  lemma BlackRoomIsStuck(e: Engine, r: RoomState, id: SocketId, m: MoveRequest)
    requires Valid(r) && r.currentGame.Some?
    requires forall x :: x in r.players ==> r.players[x] == Black
    requires e.turn(r.currentGame.value) == White
    ensures HandleMove(e, r, id, m) == Step(r, [])
  {
  }

  /** After a player's accepted move the same player is ignored until the
      opponent has moved. */
  lemma NoDoubleMove(e: Engine, r: RoomState, id: SocketId, m1: MoveRequest, m2: MoveRequest)
    requires Coherent(e) && Valid(r)
    requires HasTurn(e, r, id) && e.move(r.currentGame.value, m1).Some?
    ensures var after := HandleMove(e, r, id, m1).room;
            HandleMove(e, after, id, m2) == Step(after, [])
  {
  }

  /** A mating move is announced as a win for the colour of the player who
      made it. */
  lemma MateWinnerIsMover(e: Engine, r: RoomState, id: SocketId, m: MoveRequest)
    requires Coherent(e) && Valid(r)
    requires HasTurn(e, r, id) && e.move(r.currentGame.value, m).Some?
    requires e.isCheckmate(e.move(r.currentGame.value, m).value)
    ensures HandleMove(e, r, id, m).sent
         == [Message(All, Moved(e.fen(e.move(r.currentGame.value, m).value))), Message(All, GameOver(Mate(r.players[id])))]
  {
  }

  /** The server process: the module-level variables of server.js. */
  class Server {
    const rules: Engine
    var players: map<SocketId, Side>
    var playerSockets: seq<SocketId>
    var currentGame: Option<Position>
    /** Every message emitted so far, in order. */
    ghost var outbox: seq<Message>

    function State(): RoomState
      reads this
    {
      RoomState(players, playerSockets, currentGame)
    }

    ghost predicate Inv()
      reads this
    {
      Valid(State())
    }

    constructor (rules: Engine)
      ensures this.rules == rules && State() == Initial && outbox == []
      ensures Inv()
    {
      this.rules := rules;
      players := map[];
      playerSockets := [];
      currentGame := None;
      outbox := [];
    }

    method OnConnection(id: SocketId)
      requires Inv() && id !in players
      modifies this
      ensures Inv()
      ensures var s := Connect(rules, old(State()), id);
              State() == s.room && outbox == old(outbox) + s.sent
    {
      if |playerSockets| < 2 {
        var color := if |playerSockets| == 0 then White else Black;
        players := players[id := color];
        playerSockets := playerSockets + [id];
        outbox := outbox + [Message(One(id), Init(Seat(color), |playerSockets| == 2))];
        if |playerSockets| == 2 {
          currentGame := Some(rules.start);
          outbox := outbox + [Message(All, GameStart(rules.fen(currentGame.value)))];
        }
      } else {
        outbox := outbox + [Message(One(id), Init(Spectator, currentGame != None))];
        if currentGame.Some? {
          outbox := outbox + [Message(One(id), BoardState(rules.fen(currentGame.value)))];
        }
      }
    }

    method OnMove(id: SocketId, moveData: MoveRequest)
      requires Inv()
      modifies this
      ensures Inv()
      ensures var s := HandleMove(rules, old(State()), id, moveData);
              State() == s.room && outbox == old(outbox) + s.sent
    {
      if currentGame.None? {
        return;
      }
      if id !in players {
        return;
      }
      var player := players[id];
      if Name(player)[0] == Letter(rules.turn(currentGame.value)) {
        var moveResult := rules.move(currentGame.value, moveData);
        if moveResult.Some? {
          currentGame := moveResult;
          var game := moveResult.value;
          outbox := outbox + [Message(All, Moved(rules.fen(game)))];
          if rules.isGameOver(game) {
            var ending := Ended;
            if rules.isCheckmate(game) {
              var winner := Opposite(rules.turn(game));
              ending := Mate(winner);
            } else if rules.isDraw(game) {
              ending := Drawn;
            }
            outbox := outbox + [Message(All, GameOver(ending))];
          }
        } else {
          outbox := outbox + [Message(One(id), InvalidMove)];
        }
      }
    }

    method OnRestartGame(id: SocketId)
      requires Inv()
      modifies this
      ensures Inv()
      ensures var s := Restart(rules, old(State()));
              State() == s.room && outbox == old(outbox) + s.sent
    {
      if |playerSockets| == 2 {
        currentGame := Some(rules.start);
        outbox := outbox + [Message(All, GameStart(rules.fen(currentGame.value)))];
      }
    }

    method OnDisconnect(id: SocketId)
      requires Inv()
      modifies this
      ensures Inv()
      ensures var s := Disconnect(old(State()), id);
              State() == s.room && outbox == old(outbox) + s.sent
    {
      if id in players {
        players := players - {id};
        playerSockets := Without(playerSockets, id);
        if currentGame.Some? {
          currentGame := None;
          outbox := outbox + [Message(All, OpponentDisconnected)];
        }
      }
    }
  }
}
