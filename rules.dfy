/** The chess rules engine (the chess.js library) as the server and both
    browser clients see it. Move legality, check, mate, draw detection and
    FEN generation belong to the library and are not modelled: the engine is
    a value whose fields are uninterpreted functions over an opaque position. */
module Rules {

  datatype Option<T> = None | Some(value: T)

  /** The side to move, which chess.js reports as 'w' or 'b'. The same two
      values name a player's colour ("white" / "black") on the server. */
  datatype Side = White | Black

  function Opposite(s: Side): (o: Side)
    ensures o != s
  {
    if s == White then Black else White
  }

  /** The letter chess.js uses for a side in `turn()`. */
  function Letter(s: Side): char
  {
    if s == White then 'w' else 'b'
  }

  /** The colour name the server stores for a player. Its first letter is
      the engine's letter for that side, which is what the server's turn
      check compares. */
  function Name(s: Side): (n: string)
    ensures |n| > 0 && n[0] == Letter(s)
    ensures forall t: Side :: n[0] == Letter(t) <==> t == s
  {
    if s == White then "white" else "black"
  }

  /** A move as chess.js `move()` accepts it: an object `{from, to,
      promotion}` or a SAN string such as "Nf3". */
  datatype MoveRequest =
    | Squares(from: string, to: string, promotion: Option<string>)
    | San(text: string)

  /** An engine position: the engine state that `turn`, `move`,
      `isGameOver`, `isCheckmate`, `isDraw`, `fen` and the legal-move list
      read. The undo stack a browser keeps beside it is `Game.past`. */
  type Position(==, !new)

  /** The capabilities of chess.js used by the three core files. */
  datatype Engine = Engine(
    start: Position,                                   // `new Chess()`, `reset()`
    empty: Position,                                   // `clear()`
    turn: Position -> Side,                            // `turn()`
    move: (Position, MoveRequest) -> Option<Position>, // `move(m)`, null when illegal
    hasLegalMove: Position -> bool,                    // `moves().length > 0`
    isGameOver: Position -> bool,                      // `isGameOver()` / `game_over()`
    isCheckmate: Position -> bool,                     // `isCheckmate()`
    isDraw: Position -> bool,                          // `isDraw()`
    fen: Position -> string,                           // `fen()`
    load: string -> Option<Position>                   // `load(fen)`, false when malformed
  )

  /** What the library guarantees about its own answers and what some lemmas
      rely on: mate and draw are terminal, and an accepted move hands the
      turn to the other side. */
  ghost predicate Coherent(e: Engine)
  {
    && (forall p :: e.isCheckmate(p) ==> e.isGameOver(p))
    && (forall p :: e.isDraw(p) ==> e.isGameOver(p))
    && (forall p, m :: e.move(p, m).Some? ==> e.turn(e.move(p, m).value) == Opposite(e.turn(p)))
  }

  /** A chess.js game object in a browser: its current position and the
      positions before each applied move, most recent last (what `undo`
      returns to). */
  datatype Game = Game(pos: Position, past: seq<Position>)

  /** `new Chess()` and `reset()`: the start position with no history. */
  function NewGame(e: Engine): Game
  {
    Game(e.start, [])
  }

  /** `clear()`: the empty board with no history. */
  function Cleared(e: Engine): Game
  {
    Game(e.empty, [])
  }

  /** `undo()`: back to the position before the last move; no effect when
      no move has been made. */
  function Undo(g: Game): Game
  {
    if g.past == [] then g else Game(g.past[|g.past| - 1], g.past[..|g.past| - 1])
  }

  /** `move(m)`: None when the engine rejects the move. An accepted move is
      exactly one step that `undo` takes back. */
  function Play(e: Engine, g: Game, m: MoveRequest): (r: Option<Game>)
    ensures r.Some? <==> e.move(g.pos, m).Some?
    ensures r.Some? ==> r.value.pos == e.move(g.pos, m).value
    ensures r.Some? ==> |r.value.past| == |g.past| + 1 && Undo(r.value) == g
  {
    match e.move(g.pos, m)
    case None => None
    case Some(next) => Some(Game(next, g.past + [g.pos]))
  }

  /** `move(m)` whose null result is ignored: the game is left as it was. */
  function PlayOrKeep(e: Engine, g: Game, m: MoveRequest): (r: Game)
    ensures e.move(g.pos, m).None? ==> r == g
    ensures e.move(g.pos, m).Some? ==> r.pos == e.move(g.pos, m).value && Undo(r) == g
  {
    match Play(e, g, m)
    case None => g
    case Some(next) => next
  }

  /** `load(fen)`: a well-formed FEN replaces the position and drops the
      history; a malformed one leaves the game untouched. */
  function Load(e: Engine, g: Game, text: string): (r: Game)
    ensures e.load(text).None? ==> r == g
    ensures e.load(text).Some? ==> r.pos == e.load(text).value && Undo(r) == r
  {
    match e.load(text)
    case None => g
    case Some(p) => Game(p, [])
  }
}
