/** The engine as the page runs it: one object holding the module-level
    variables, updated in place by the turn, AI and message handlers.
    Every method is proved to perform the matching operation of module
    Rules, where the properties of those operations are proved. */
module Engine {
  import opened Board
  import opened Strategy
  import opened Wire
  import opened Rules

  /** The lookup in `movePlayer`: the snake table first, then the ladder
      table, one hop at most. */
  method LandingCell(c: int) returns (cell: int)
    ensures cell == Resolve(c)
  {
    ResolveLooksUp(c);
    cell := c;
    if c in Snakes {
      cell := Snakes[c];
    } else if c in Ladders {
      cell := Ladders[c];
    }
  }

  class GameEngine {
    var currentPlayer: int
    var positions: seq<int>
    var gameOver: bool
    var mode: Mode
    var difficulty: Difficulty
    var isAITurn: bool
    var names: seq<string>
    var isOnlineHost: bool
    var roster: Roster
    var isOnlineGame: bool
    var isMyTurn: bool
    /** Everything handed to the peer connection, oldest first. */
    var outbox: seq<Message>
    /** The opponent's rolls whose delayed move has not run yet, oldest
        first. */
    var pendingRolls: seq<int>

    /** The variables as one value. */
    function State(): Game
      reads this
    {
      Game(currentPlayer, positions, gameOver, mode, difficulty, isAITurn, names,
           isOnlineHost, roster, isOnlineGame, isMyTurn, outbox, pendingRolls)
    }

    predicate Valid()
      reads this
    {
      State().Valid()
    }

    /** The variables as the page initialises them, with the mode, the
        difficulty and the host role chosen beforehand. */
    constructor (mode: Mode, difficulty: Difficulty, isOnlineHost: bool)
      ensures Valid()
      ensures State() == Initial(mode, difficulty, isOnlineHost)
    {
      currentPlayer := 0;
      positions := [0, 0];
      gameOver := false;
      this.mode := mode;
      this.difficulty := difficulty;
      isAITurn := false;
      names := ["Player 1", "Player 2"];
      this.isOnlineHost := isOnlineHost;
      roster := map[];
      isOnlineGame := false;
      isMyTurn := false;
      outbox := [];
      pendingRolls := [];
    }

    /** `sendData`. */
    method SendData(m: Message)
      modifies this
      ensures State() == Send(old(State()), m)
    {
      outbox := outbox + [m];
    }

    /** `movePlayer`: the mover is piece 1 for an opponent's move and the
        current player otherwise. */
    method MovePlayer(steps: int, isOpponent: bool)
      requires Valid()
      modifies this
      ensures Valid()
      ensures State() == Move(old(State()), steps, isOpponent)
    {
      var playerIndex := if isOpponent then 1 else currentPlayer;
      var currentPosition := positions[playerIndex];
      var newPosition := currentPosition + steps;
      if newPosition >= BoardSize {
        FinishGame(isOpponent);
      } else {
        newPosition := LandingCell(newPosition);
        PlacePiece(playerIndex, newPosition, isOpponent);
      }
    }

    /** The part of `movePlayer` for a raw sum of 100 or more. */
    method FinishGame(isOpponent: bool)
      requires Valid()
      modifies this
      ensures State() == Finish(old(State()), isOpponent)
    {
      gameOver := true;
      if isOnlineGame && !isOpponent {
        SendData(PlayerMove(BoardSize, true, Some(names[0])));
      }
    }

    /** The part of `movePlayer` that puts piece `playerIndex` on `landed`
        and passes the turn. */
    method PlacePiece(playerIndex: int, landed: int, isOpponent: bool)
      requires Valid() && 0 <= playerIndex < Players
      modifies this
      ensures State() == Place(old(State()), playerIndex, landed, isOpponent)
    {
      positions := positions[playerIndex := landed];
      if isOnlineGame && !isOpponent && !gameOver {
        SendData(PlayerMove(landed, false, None));
        isMyTurn := false;
        currentPlayer := 1;
      } else if !gameOver && !isOnlineGame {
        currentPlayer := (currentPlayer + 1) % Players;
      }
    }

    /** `rollDice`, with the value its animation settles on as a
        parameter. Against the computer, a roll that hands it the turn
        raises `isAITurn`; its reply is the separate step `AiPlay`. */
    method RollDice(finalValue: int)
      requires Valid()
      modifies this
      ensures Valid()
      ensures State() == Roll(old(State()), finalValue)
    {
      if gameOver || isAITurn || (isOnlineGame && !isMyTurn) {
        return;
      }
      if isOnlineGame {
        SendData(DiceRoll(finalValue));
        MovePlayer(finalValue, false);
      } else {
        MovePlayer(finalValue, false);
        if !gameOver && mode == VsAI && currentPlayer == 1 {
          isAITurn := true;
        }
      }
    }

    /** `aiPlay`: `useStrategy` is the outcome of the draw against the
        difficulty's threshold and `randomValue` the plain random roll. */
    method AiPlay(useStrategy: bool, randomValue: int)
      requires Valid() && 1 <= randomValue <= Faces
      modifies this
      ensures Valid()
      ensures State() == AiTurn(old(State()), useStrategy, randomValue)
    {
      if gameOver {
        return;
      }
      var diceValue := AiDiceValue(useStrategy, randomValue);
      MovePlayer(diceValue, false);
      isAITurn := false;
    }

    /** The dice value `aiPlay` picks for the current difficulty. */
    method AiDiceValue(useStrategy: bool, randomValue: int) returns (diceValue: int)
      requires Valid() && 1 <= randomValue <= Faces
      ensures diceValue == AiDice(difficulty, useStrategy, randomValue, positions[1])
    {
      match difficulty {
        case Easy =>
          diceValue := randomValue;
        case Medium | Hard =>
          if useStrategy {
            diceValue := StrategicAIMove(Snakes, Ladders, positions[1]);
          } else {
            diceValue := randomValue;
          }
      }
    }

    /** `resetGame`. */
    method ResetGame()
      requires Valid()
      modifies this
      ensures Valid()
      ensures State() == Reset(old(State()))
    {
      currentPlayer := 0;
      positions := [0, 0];
      gameOver := false;
      isAITurn := false;
      if isOnlineGame {
        isMyTurn := isOnlineHost;
      }
    }

    /** `handleOpponentMove` for a `playerMove` carrying `position` and the
        final flag `final`. */
    method HandleOpponentMove(position: int, final: bool)
      requires Valid()
      modifies this
      ensures Valid()
      ensures State() == OpponentMove(old(State()), position, final)
    {
      positions := positions[1 := position];
      if !final {
        isMyTurn := true;
        currentPlayer := 0;
      } else {
        gameOver := true;
      }
    }

    /** `startOnlineGame`. */
    method StartOnlineGame(data: StartArg)
      requires Valid()
      modifies this
      ensures Valid()
      ensures State() == StartOnline(old(State()), data)
    {
      match data {
        case NoArgument =>
          SendData(GameStart(names[0]));
          isMyTurn := true;
        case StartMessage(opponentName) =>
          names := names[1 := opponentName];
          isMyTurn := false;
        case ClickEvent =>
          names := names[1 := UndefinedText];
          isMyTurn := false;
      }
      isOnlineGame := true;
    }

    /** The start button as wired: its click handler is `startOnlineGame`
        itself, which then receives the click event. */
    method StartButtonClicked()
      requires Valid()
      modifies this
      ensures Valid()
      ensures State() == StartOnline(old(State()), ClickEvent)
      ensures outbox == old(outbox) && !isMyTurn
    {
      StartOnlineGame(ClickEvent);
    }

    /** The start button as intended: the host starts the game by calling
        `startOnlineGame` without an argument. */
    method HostStartsGame()
      requires Valid()
      modifies this
      ensures Valid()
      ensures State() == StartOnline(old(State()), NoArgument)
      ensures outbox == old(outbox) + [GameStart(old(names[0]))] && isMyTurn
    {
      StartOnlineGame(NoArgument);
    }

    /** `addOnlinePlayer`. */
    method AddOnlinePlayer(playerId: string, playerName: string)
      modifies this
      ensures State() == old(State()).(roster := AddPlayer(old(roster), playerId, playerName))
    {
      roster := roster[playerId := Member(playerName, true)];
    }

    /** `removeOnlinePlayer`. */
    method RemoveOnlinePlayer(playerId: string)
      modifies this
      ensures State() == old(State()).(roster := RemovePlayer(old(roster), playerId))
    {
      roster := roster - {playerId};
    }

    /** `handleOnlineData`. A `diceRoll` only schedules the opponent's
        move; `RunPendingRoll` is the timer firing. */
    method HandleOnlineData(data: Message)
      requires Valid()
      modifies this
      ensures Valid()
      ensures State() == HandleData(old(State()), data)
    {
      match data {
        case PlayerInfo(playerId, playerName) =>
          AddOnlinePlayer(playerId, playerName);
        case GameStart(opponentName) =>
          StartOnlineGame(StartMessage(opponentName));
        case DiceRoll(value) =>
          HandleOpponentDiceRoll(value);
        case PlayerMove(position, final, _) =>
          HandleOpponentMove(position, final);
        case ChatMessage(_, _) =>
        case Unknown(_) =>
      }
    }

    /** `handleOpponentDiceRoll`: the opponent's move is scheduled for one
        second later. */
    method HandleOpponentDiceRoll(value: int)
      modifies this
      ensures State() == old(State()).(pendingRolls := old(pendingRolls) + [value])
    {
      pendingRolls := pendingRolls + [value];
    }

    /** The timer of the oldest scheduled roll firing: `movePlayer` for
        the opponent with that value. */
    method RunPendingRoll()
      requires Valid() && pendingRolls != []
      modifies this
      ensures Valid()
      ensures State() == Rules.RunPendingRoll(old(State()))
    {
      var value := pendingRolls[0];
      pendingRolls := pendingRolls[1..];
      MovePlayer(value, true);
    }

    /** `handleOnlineData` with the opponent's roll applied on arrival, so
        that the `playerMove` following it lands on the cell the roll
        reached. */
    method ReceiveOnArrival(data: Message)
      requires Valid()
      modifies this
      ensures Valid()
      ensures State() == Receive(old(State()), data, OnArrival)
    {
      if data.DiceRoll? {
        MovePlayer(data.value, true);
      } else {
        HandleOnlineData(data);
      }
    }

    /** The start-button condition of `updateOnlineUI`. */
    function StartButtonVisible(): (shown: bool)
      reads this
      ensures shown <==> isOnlineHost && |roster| == 1
    {
      StartButtonShown(isOnlineHost, roster)
    }
  }
}
