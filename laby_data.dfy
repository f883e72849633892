/** The state the labyrinth's command interpreter works on: the labyrinth
    record, the console's message history, the console-games bookkeeping, and
    the turn generator that lives outside the interpreter. */
module LabyData {
  import opened RustStr

  datatype GameState = Tutorial | Exploring

  /** The interpreter only ever asks whether a room is `Enemy` or `Item`;
      every other kind of room behaves like `Narrative`. */
  datatype RoomType = Enemy | Item | Narrative

  datatype Movement = Forward | Left | Right

  /** The value of the labyrinth record, as far as the interpreter can see it.
      `nextDirections` holds the movements `can_go_direction` accepts. */
  datatype Laby = Laby(
    gameState: GameState,
    roomType: RoomType,
    hasShownTurnInfos: bool,
    waitForContinue: bool,
    enemyHealth: int,
    nextDirections: set<Movement>)

  /** The collaborators the interpreter calls but does not define.
      `newTurn(l, k)` is the room `new_turn` produces from `l` when it has
      already been called `k` times (the count stands for whatever randomness
      and resource data it consumes); `parseMovement` is
      `Movement::from_string`; `reset` is `LabyrinthData::reset`. */
  datatype Env = Env(
    newTurn: (Laby, nat) -> Laby,
    parseMovement: string -> Option<Movement>,
    reset: Laby -> Laby)

  /** Everything a batch of commands can change, as one value:
      the labyrinth record, the console history, how many times the
      console-games data was told to ragequit, and how many turns the
      generator has produced. */
  datatype Session = Session(laby: Laby, messages: seq<string>, ragequits: nat, turns: nat)

  /** The labyrinth record, updated field by field in place. The game
      creates and owns it; the interpreter only receives it. */
  class LabyrinthData {
    var gameState: GameState
    var roomType: RoomType
    var hasShownTurnInfos: bool
    var waitForContinue: bool
    var enemyHealth: int
    var nextDirections: set<Movement>

    function View(): Laby
      reads this
    {
      Laby(gameState, roomType, hasShownTurnInfos, waitForContinue, enemyHealth, nextDirections)
    }

    /** Overwrites every field, as `new_turn` and `reset` may. */
    method Assign(l: Laby)
      modifies this
      ensures View() == l
    {
      gameState, roomType := l.gameState, l.roomType;
      hasShownTurnInfos, waitForContinue := l.hasShownTurnInfos, l.waitForContinue;
      enemyHealth, nextDirections := l.enemyHealth, l.nextDirections;
    }

    /** `laby_data.reset()` */
    method Reset(env: Env)
      modifies this
      ensures View() == env.reset(old(View()))
    {
      Assign(env.reset(View()));
    }
  }

  /** The console's history of displayed messages, owned by the console. */
  class ConsoleData {
    var messages: seq<string>
  }

  /** The console-games bookkeeping; only its `ragequit` entry point is used. */
  class ConsoleGamesData {
    var ragequits: nat

    /** `cg_data.ragequit(..)`: records that the labyrinth gave up the console. */
    method Ragequit()
      modifies this
      ensures ragequits == old(ragequits) + 1
    {
      ragequits := ragequits + 1;
    }
  }

  /** `new_turn`, together with the randomness and resource file it reads. */
  class TurnGenerator {
    var turns: nat

    /** `new_turn(&mut laby_data, &laby_res)`: replaces the labyrinth record by
        the next room, and counts the call. */
    method NewTurn(env: Env, laby: LabyrinthData)
      modifies this, laby
      ensures laby.View() == env.newTurn(old(laby.View()), old(turns))
      ensures turns == old(turns) + 1
    {
      laby.Assign(env.newTurn(laby.View(), turns));
      turns := turns + 1;
    }
  }

  function Snapshot(laby: LabyrinthData, console: ConsoleData, games: ConsoleGamesData, gen: TurnGenerator): Session
    reads laby, console, games, gen
  {
    Session(laby.View(), console.messages, games.ragequits, gen.turns)
  }
}
