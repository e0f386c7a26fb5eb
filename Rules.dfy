/** The game's state as a value and each operation of the engine as a
    function from state to state. The class in module Engine performs
    these operations in place and is proved against these functions. */
module Rules {
  import opened Board
  import opened Strategy
  import opened Wire

  /** The game-mode selector's values. */
  datatype Mode = TwoPlayers | VsAI | Online

  /** The argument `startOnlineGame` runs with: none (the host's call), a
      received `gameStart` message, or the click event the browser passes
      when the function is called as the start button's handler. */
  datatype StartArg = NoArgument | StartMessage(opponentName: string) | ClickEvent

  /** How the missing `opponentName` of a click event shows up as a player
      name: the text of JavaScript's `undefined`. */
  const UndefinedText: string := "undefined"

  /** Every module-level variable the engine reads or writes, and the
      opponent rolls whose delayed move (`handleOpponentDiceRoll` schedules
      it one second ahead) has not run yet, oldest first. */
  datatype Game = Game(
    currentPlayer: int,
    positions: seq<int>,
    gameOver: bool,
    mode: Mode,
    difficulty: Difficulty,
    isAITurn: bool,
    names: seq<string>,
    isOnlineHost: bool,
    roster: Roster,
    isOnlineGame: bool,
    isMyTurn: bool,
    outbox: seq<Message>,
    pendingRolls: seq<int>)
  {
    /** Two players, two names, and the turn belongs to one of them. */
    predicate Valid() {
      |positions| == Players && |names| == Players && 0 <= currentPlayer < Players
    }

    /** Both pieces stand on the board, 0 meaning not yet entered. */
    predicate OnBoard()
      requires Valid()
    {
      forall i :: 0 <= i < Players ==> 0 <= positions[i] <= BoardSize
    }
  }

  /** The state when the page loads, with the mode, the difficulty and the
      host role already chosen. */
  function Initial(mode: Mode, difficulty: Difficulty, isOnlineHost: bool): (g: Game)
    ensures g.Valid() && g.OnBoard()
    ensures g.positions == [0, 0] && g.currentPlayer == 0
    ensures !g.gameOver && !g.isAITurn && !g.isOnlineGame && !g.isMyTurn
    ensures g.mode == mode && g.difficulty == difficulty && g.isOnlineHost == isOnlineHost
    ensures g.names == ["Player 1", "Player 2"] && g.roster == map[]
    ensures g.outbox == [] && g.pendingRolls == []
  {
    Game(0, [0, 0], false, mode, difficulty, false, ["Player 1", "Player 2"],
         isOnlineHost, map[], false, false, [], [])
  }

  /** Hands `m` to the peer connection. */
  function Send(g: Game, m: Message): (r: Game)
    ensures |r.outbox| == |g.outbox| + 1
    ensures r.outbox[..|g.outbox|] == g.outbox && r.outbox[|g.outbox|] == m
    ensures r.(outbox := g.outbox) == g
  {
    g.(outbox := g.outbox + [m])
  }

  /** The index of the piece a move applies to. */
  function Mover(g: Game, isOpponent: bool): (i: int)
    requires g.Valid()
    ensures 0 <= i < Players
  {
    if isOpponent then 1 else g.currentPlayer
  }

  /** `movePlayer(steps, isOpponent)`. */
  function Move(g: Game, steps: int, isOpponent: bool): (r: Game)
    requires g.Valid()
    ensures r.Valid()
  {
    var i := Mover(g, isOpponent);
    var candidate := g.positions[i] + steps;
    if candidate >= BoardSize then Finish(g, isOpponent)
    else Place(g, i, Resolve(candidate), isOpponent)
  }

  /** The branch of `movePlayer` for a raw sum of 100 or more. */
  function Finish(g: Game, isOpponent: bool): (r: Game)
    requires g.Valid()
    ensures r.gameOver && r.positions == g.positions
    ensures r.currentPlayer == g.currentPlayer && r.isMyTurn == g.isMyTurn
  {
    var finished := g.(gameOver := true);
    if g.isOnlineGame && !isOpponent then
      Send(finished, PlayerMove(BoardSize, true, Some(g.names[0])))
    else finished
  }

  /** The branch of `movePlayer` that puts piece `i` on `landed`. */
  function Place(g: Game, i: int, landed: int, isOpponent: bool): (r: Game)
    requires g.Valid() && 0 <= i < Players
    ensures r.positions == g.positions[i := landed] && r.gameOver == g.gameOver
  {
    var placed := g.(positions := g.positions[i := landed]);
    if g.isOnlineGame && !isOpponent && !g.gameOver then
      Send(placed, PlayerMove(landed, false, None)).(isMyTurn := false, currentPlayer := 1)
    else if !g.gameOver && !g.isOnlineGame then
      placed.(currentPlayer := (g.currentPlayer + 1) % Players)
    else placed
  }

  /** The three conditions under which the roll button does nothing. */
  predicate RollBlocked(g: Game) {
    g.gameOver || g.isAITurn || (g.isOnlineGame && !g.isMyTurn)
  }

  /** `rollDice` once its animation has settled on `value`. */
  function Roll(g: Game, value: int): (r: Game)
    requires g.Valid()
    ensures r.Valid()
  {
    if RollBlocked(g) then g
    else if g.isOnlineGame then Move(Send(g, DiceRoll(value)), value, false)
    else
      var moved := Move(g, value, false);
      if !moved.gameOver && moved.mode == VsAI && moved.currentPlayer == 1
      then moved.(isAITurn := true)
      else moved
  }

  /** `aiPlay`, with the random draws as parameters. */
  function AiTurn(g: Game, useStrategy: bool, randomValue: int): (r: Game)
    requires g.Valid() && 1 <= randomValue <= Faces
    ensures r.Valid()
  {
    if g.gameOver then g
    else
      var dice := AiDice(g.difficulty, useStrategy, randomValue, g.positions[1]);
      Move(g, dice, false).(isAITurn := false)
  }

  /** `resetGame`. */
  function Reset(g: Game): (r: Game)
    requires g.Valid()
    ensures r.Valid() && r.OnBoard()
  {
    var cleared := g.(currentPlayer := 0, positions := [0, 0], gameOver := false, isAITurn := false);
    if g.isOnlineGame then cleared.(isMyTurn := g.isOnlineHost) else cleared
  }

  /** `handleOpponentMove` for a `playerMove` message. */
  function OpponentMove(g: Game, position: int, final: bool): (r: Game)
    requires g.Valid()
    ensures r.Valid()
  {
    var placed := g.(positions := g.positions[1 := position]);
    if !final then placed.(isMyTurn := true, currentPlayer := 0)
    else placed.(gameOver := true)
  }

  /** `startOnlineGame`: any argument at all takes the joining side's
      branch; only a call without one takes the host's. */
  function StartOnline(g: Game, arg: StartArg): (r: Game)
    requires g.Valid()
    ensures r.Valid()
  {
    match arg
    case NoArgument =>
      Send(g, GameStart(g.names[0])).(isMyTurn := true, isOnlineGame := true)
    case StartMessage(name) =>
      g.(names := g.names[1 := name], isMyTurn := false, isOnlineGame := true)
    case ClickEvent =>
      g.(names := g.names[1 := UndefinedText], isMyTurn := false, isOnlineGame := true)
  }

  /** `handleOnlineData`: dispatch on the message type. A `diceRoll` only
      schedules the opponent's move; `RunPendingRoll` is the timer firing. */
  function HandleData(g: Game, m: Message): (r: Game)
    requires g.Valid()
    ensures r.Valid()
  {
    match m
    case PlayerInfo(id, name) => g.(roster := AddPlayer(g.roster, id, name))
    case GameStart(name) => StartOnline(g, StartMessage(name))
    case DiceRoll(value) => g.(pendingRolls := g.pendingRolls + [value])
    case PlayerMove(position, final, _) => OpponentMove(g, position, final)
    case ChatMessage(_, _) => g
    case Unknown(_) => g
  }

  /** `getPlayerName`. */
  function PlayerName(g: Game, i: int): (name: string)
    requires g.Valid() && 0 <= i < Players
    ensures name == if g.mode == VsAI && i == 1 then "AI" else g.names[i]
  {
    if g.mode == VsAI && i == 1 then "AI"
    else if g.isOnlineGame && i == 1 then g.names[1]
    else g.names[i]
  }

  /** The opponent's delayed move firing: the oldest scheduled roll moves
      piece 1. */
  function RunPendingRoll(g: Game): (r: Game)
    requires g.Valid() && g.pendingRolls != []
    ensures r.Valid() && r.pendingRolls == g.pendingRolls[1..]
  {
    Move(g.(pendingRolls := g.pendingRolls[1..]), g.pendingRolls[0], true)
  }

  /** When the receiver applies an opponent's roll: `Deferred` as the
      page does, one second after it arrives; `OnArrival` before the next
      message is handled. */
  datatype RollTiming = Deferred | OnArrival

  /** Receiving one message with the given timing of rolls. */
  function Receive(g: Game, m: Message, timing: RollTiming): (r: Game)
    requires g.Valid()
    ensures r.Valid()
  {
    if timing == OnArrival && m.DiceRoll? then Move(g, m.value, true)
    else HandleData(g, m)
  }

  /** Several messages received in order. */
  function Deliver(g: Game, msgs: seq<Message>, timing: RollTiming): (r: Game)
    requires g.Valid()
    ensures r.Valid()
    decreases |msgs|
  {
    if msgs == [] then g else Deliver(Receive(g, msgs[0], timing), msgs[1..], timing)
  }

  /** Receiving two messages is handling one after the other. */
  lemma DeliverTwo(g: Game, first: Message, second: Message, timing: RollTiming)
    requires g.Valid()
    ensures Deliver(g, [first, second], timing) == Receive(Receive(g, first, timing), second, timing)
  {
    var afterFirst := Receive(g, first, timing);
    assert [first, second][1..] == [second];
    assert Deliver(g, [first, second], timing) == Deliver(afterFirst, [second], timing);
    assert [second][1..] == [];
    assert Deliver(afterFirst, [second], timing) == Deliver(Receive(afterFirst, second, timing), [], timing);
  }

  /** Several rolls of the button in a row. */
  function RollAll(g: Game, values: seq<int>): (r: Game)
    requires g.Valid()
    ensures r.Valid()
    decreases |values|
  {
    if values == [] then g else RollAll(Roll(g, values[0]), values[1..])
  }

  /** What one call puts in the outbox. */
  function SentBy(before: Game, after: Game): (sent: seq<Message>)
    requires |before.outbox| <= |after.outbox|
    ensures |sent| == |after.outbox| - |before.outbox|
    ensures after.outbox == after.outbox[..|before.outbox|] + sent
  {
    after.outbox[|before.outbox|..]
  }

  /** Sending puts exactly the message on the wire, and two sends put both
      in order. */
  lemma SendPutsOneMessage(g: Game, first: Message, second: Message)
    ensures SentBy(g, Send(g, first)) == [first]
    ensures SentBy(g, Send(Send(g, first), second)) == [first, second]
  {
    var once := Send(g, first);
    assert once.outbox == g.outbox + [first];
    assert Send(once, second).outbox == g.outbox + [first, second];
  }

  // ---------------------------------------------------------------- moves

  /** A raw sum of 100 or more ends the game and moves nobody; only the
      local player of an online game reports the win. */
  lemma MoveReachingTheEndFinishes(g: Game, steps: int, isOpponent: bool)
    requires g.Valid()
    requires g.positions[Mover(g, isOpponent)] + steps >= BoardSize
    ensures var r := Move(g, steps, isOpponent);
      && r.gameOver
      && r.positions == g.positions
      && r.currentPlayer == g.currentPlayer
      && r.isMyTurn == g.isMyTurn
      && r.outbox == g.outbox +
           (if g.isOnlineGame && !isOpponent then [PlayerMove(BoardSize, true, Some(g.names[0]))] else [])
  {
  }

  /** Below 100 the mover takes at most one hop from the landing cell,
      the other piece stays, and the game-over flag is untouched. */
  lemma MoveTakesOneHop(g: Game, steps: int, isOpponent: bool)
    requires g.Valid()
    requires g.positions[Mover(g, isOpponent)] + steps < BoardSize
    ensures var i := Mover(g, isOpponent);
      var candidate := g.positions[i] + steps;
      var r := Move(g, steps, isOpponent);
      && r.positions[i] == (if candidate in Snakes then Snakes[candidate]
                            else if candidate in Ladders then Ladders[candidate]
                            else candidate)
      && r.positions[1 - i] == g.positions[1 - i]
      && !IsHead(r.positions[i])
      && r.gameOver == g.gameOver
  {
    var candidate := g.positions[Mover(g, isOpponent)] + steps;
    ResolveLooksUp(candidate);
    ResolveIdempotent(candidate);
  }

  /** Reaching the last cell by the ladder at 80 does not end the game:
      only the raw sum is compared with 100. */
  lemma LadderToTheEndDoesNotFinish(g: Game, steps: int)
    requires g.Valid() && !g.gameOver && !g.isOnlineGame
    requires g.positions[g.currentPlayer] + steps == 80
    ensures var r := Move(g, steps, false);
      r.positions[g.currentPlayer] == BoardSize && !r.gameOver
      && r.currentPlayer != g.currentPlayer
  {
  }

  /** In a local game a move that does not finish passes the turn. */
  lemma LocalMovePassesTheTurn(g: Game, steps: int)
    requires g.Valid() && !g.isOnlineGame && !g.gameOver
    requires g.positions[g.currentPlayer] + steps < BoardSize
    ensures var r := Move(g, steps, false);
      r.currentPlayer == (g.currentPlayer + 1) % Players && r.outbox == g.outbox
  {
  }

  /** Online, the local player's non-final move reports the new position
      once and hands the turn to the opponent. */
  lemma OnlineMoveHandsOverTheTurn(g: Game, steps: int)
    requires g.Valid() && g.isOnlineGame && !g.gameOver
    requires g.positions[g.currentPlayer] + steps < BoardSize
    ensures var r := Move(g, steps, false);
      && r.outbox == g.outbox + [PlayerMove(r.positions[g.currentPlayer], false, None)]
      && r.currentPlayer == 1
      && !r.isMyTurn
  {
  }

  /** An opponent's move always moves piece 1, sends nothing and leaves
      the turn where it was. */
  lemma OpponentMoveKeepsTheTurn(g: Game, steps: int)
    requires g.Valid() && g.isOnlineGame
    ensures var r := Move(g, steps, true);
      && r.positions[0] == g.positions[0]
      && r.currentPlayer == g.currentPlayer
      && r.isMyTurn == g.isMyTurn
      && r.outbox == g.outbox
  {
  }

  /** Moving forward keeps both pieces on the board. */
  lemma MoveKeepsPiecesOnBoard(g: Game, steps: int, isOpponent: bool)
    requires g.Valid() && g.OnBoard() && steps >= 0
    ensures Move(g, steps, isOpponent).OnBoard()
  {
    var i := Mover(g, isOpponent);
    var candidate := g.positions[i] + steps;
    if candidate >= BoardSize {
      assert Finish(g, isOpponent).positions == g.positions;
    } else {
      if candidate != 0 {
        ResolveStaysOnBoard(candidate);
      }
      PlaceKeepsPiecesOnBoard(g, i, Resolve(candidate), isOpponent);
    }
  }

  /** Putting a piece on a board cell keeps both pieces on the board. */
  lemma PlaceKeepsPiecesOnBoard(g: Game, i: int, landed: int, isOpponent: bool)
    requires g.Valid() && g.OnBoard() && 0 <= i < Players && 0 <= landed <= BoardSize
    ensures Place(g, i, landed, isOpponent).OnBoard()
  {
    assert Place(g, i, landed, isOpponent).positions == g.positions[i := landed];
  }

  // ---------------------------------------------------------------- rolls

  /** A finished game, the computer's turn, or the opponent's turn online:
      the roll button changes nothing. */
  lemma BlockedRollChangesNothing(g: Game, value: int)
    requires g.Valid() && RollBlocked(g)
    ensures Roll(g, value) == g
  {
  }

  /** Rolls keep both pieces on the board. */
  lemma {:induction false} RollsKeepPiecesOnBoard(g: Game, values: seq<int>)
    requires g.Valid() && g.OnBoard()
    requires forall k :: 0 <= k < |values| ==> 1 <= values[k] <= Faces
    ensures RollAll(g, values).OnBoard()
    decreases |values|
  {
    if values != [] {
      var v := values[0];
      if !RollBlocked(g) {
        if g.isOnlineGame {
          MoveKeepsPiecesOnBoard(Send(g, DiceRoll(v)), v, false);
        } else {
          MoveKeepsPiecesOnBoard(g, v, false);
        }
      }
      RollsKeepPiecesOnBoard(Roll(g, v), values[1..]);
    }
  }

  /** Once the game is over, no roll changes anything. */
  lemma {:induction false} FinishedGameIgnoresRolls(g: Game, values: seq<int>)
    requires g.Valid() && g.gameOver
    ensures RollAll(g, values) == g
    decreases |values|
  {
    if values != [] {
      FinishedGameIgnoresRolls(Roll(g, values[0]), values[1..]);
    }
  }

  /** Against the computer: after a human roll that does not finish, the
      computer holds the turn and the button is blocked; the computer's
      move clears the flag and, unless it finishes, gives the turn back. */
  lemma ComputerRepliesToEveryHumanMove(g: Game, value: int, useStrategy: bool, randomValue: int)
    requires g.Valid() && g.mode == VsAI && !g.isOnlineGame
    requires !g.gameOver && !g.isAITurn && g.currentPlayer == 0
    requires 1 <= randomValue <= Faces
    ensures var human := Roll(g, value);
      !human.gameOver ==>
        && human.isAITurn && human.currentPlayer == 1
        && RollBlocked(human)
        && var ai := AiTurn(human, useStrategy, randomValue);
           !ai.isAITurn && (ai.gameOver || ai.currentPlayer == 0)
  {
    var human := Roll(g, value);
    if !human.gameOver {
      var dice := AiDice(human.difficulty, useStrategy, randomValue, human.positions[1]);
      if human.positions[1] + dice < BoardSize {
        LocalMovePassesTheTurn(human, dice);
      }
    }
  }

  // ---------------------------------------------------------------- reset

  /** Resetting clears the board and the turn, and online gives the first
      turn to the host. */
  lemma ResetStartsOver(g: Game)
    requires g.Valid()
    ensures var r := Reset(g);
      && r.currentPlayer == 0 && r.positions == [0, 0]
      && !r.gameOver && !r.isAITurn
      && (g.isOnlineGame ==> r.isMyTurn == g.isOnlineHost)
      && (!g.isOnlineGame ==> r.isMyTurn == g.isMyTurn)
      && r.outbox == g.outbox && r.names == g.names && r.roster == g.roster
  {
  }

  /** Resetting twice is resetting once. */
  lemma ResetIsIdempotent(g: Game)
    requires g.Valid()
    ensures Reset(Reset(g)) == Reset(g)
  {
  }

  /** The page loads in the state a reset produces. */
  lemma InitialIsReset(mode: Mode, difficulty: Difficulty, isOnlineHost: bool)
    ensures Reset(Initial(mode, difficulty, isOnlineHost)) == Initial(mode, difficulty, isOnlineHost)
  {
  }

  // ------------------------------------------------------------- messages

  /** A `playerMove` puts the opponent's piece where the message says,
      keeps one's own, and either gives the turn back or ends the game. */
  lemma OpponentMoveMessage(g: Game, position: int, final: bool, winner: Option<string>)
    requires g.Valid()
    ensures var r := HandleData(g, PlayerMove(position, final, winner));
      && r.positions == [g.positions[0], position]
      && (!final ==> r.isMyTurn && r.currentPlayer == 0 && r.gameOver == g.gameOver)
      && (final ==> r.gameOver && r.isMyTurn == g.isMyTurn && r.currentPlayer == g.currentPlayer)
      && r.outbox == g.outbox
  {
  }

  /** A `diceRoll` only queues its value: no piece moves until the timer
      fires. */
  lemma DiceRollIsQueued(g: Game, value: int)
    requires g.Valid()
    ensures HandleData(g, DiceRoll(value)) == g.(pendingRolls := g.pendingRolls + [value])
  {
  }

  /** Chat messages and unknown types leave the state as it was. */
  lemma IgnoredMessages(g: Game, m: Message)
    requires g.Valid() && (m.ChatMessage? || m.Unknown?)
    ensures HandleData(g, m) == g
  {
  }

  /** Moving the opponent's piece never sends a message. */
  lemma OpponentMoveSendsNothing(g: Game, steps: int)
    requires g.Valid()
    ensures Move(g, steps, true).outbox == g.outbox
  {
  }

  /** Receiving a message never sends one, whenever the roll is applied,
      and neither does the delayed move of a received roll. */
  lemma ReceivingSendsNothing(g: Game, m: Message, timing: RollTiming)
    requires g.Valid()
    ensures Receive(g, m, timing).outbox == g.outbox
    ensures g.pendingRolls != [] ==> RunPendingRoll(g).outbox == g.outbox
  {
    match m {
      case DiceRoll(value) =>
        if timing == OnArrival {
          OpponentMoveSendsNothing(g, value);
        } else {
          assert Receive(g, m, timing) == g.(pendingRolls := g.pendingRolls + [value]);
        }
      case GameStart(name) =>
        assert Receive(g, m, timing) == StartOnline(g, StartMessage(name));
      case PlayerMove(position, final, _) =>
        assert Receive(g, m, timing) == OpponentMove(g, position, final);
      case _ =>
    }
    if g.pendingRolls != [] {
      PendingRollSendsNothing(g);
    }
  }

  /** The delayed move of a received roll sends nothing. */
  lemma PendingRollSendsNothing(g: Game)
    requires g.Valid() && g.pendingRolls != []
    ensures RunPendingRoll(g).outbox == g.outbox
  {
    OpponentMoveSendsNothing(g.(pendingRolls := g.pendingRolls[1..]), g.pendingRolls[0]);
  }

  /** The rolling side of an online turn: it sends the roll, then the
      resulting `playerMove`; a sum below 100 places its piece, passes the
      turn and leaves the game running, a larger one ends the game. */
  lemma OnlineRollSendsTwoMessages(mover: Game, value: int)
    requires mover.Valid()
    requires mover.isOnlineGame && !RollBlocked(mover) && mover.currentPlayer == 0
    ensures var m := Roll(mover, value);
      var candidate := mover.positions[0] + value;
      && (candidate >= BoardSize ==>
            m.gameOver
            && m.outbox == mover.outbox + [DiceRoll(value), PlayerMove(BoardSize, true, Some(mover.names[0]))])
      && (candidate < BoardSize ==>
            !m.gameOver && m.positions[0] == Resolve(candidate)
            && !m.isMyTurn && m.currentPlayer == 1
            && m.outbox == mover.outbox + [DiceRoll(value), PlayerMove(Resolve(candidate), false, None)])
  {
    var sent := Send(mover, DiceRoll(value));
    assert Roll(mover, value) == Move(sent, value, false);
    assert sent.outbox == mover.outbox + [DiceRoll(value)];
  }

  /** The receiving side of an online turn when the roll is applied on
      arrival: the roll moves its copy of the opponent's piece, the
      `playerMove` then overwrites that copy, and its own piece is never
      touched. */
  lemma ReceiveOnlineTurn(receiver: Game, value: int, position: int, final: bool, winner: Option<string>)
    requires receiver.Valid() && !receiver.gameOver
    ensures var afterRoll := Receive(receiver, DiceRoll(value), OnArrival);
      var r := Receive(afterRoll, PlayerMove(position, final, winner), OnArrival);
      && r.positions[0] == receiver.positions[0]
      && r.positions[1] == position
      && (final ==> r.gameOver)
      && (!final ==> r.isMyTurn && r.currentPlayer == 0
                     && (r.gameOver <==> receiver.positions[1] + value >= BoardSize))
  {
    var afterRoll := Receive(receiver, DiceRoll(value), OnArrival);
    assert afterRoll == Move(receiver, value, true);
    assert afterRoll.positions[0] == receiver.positions[0];
    assert afterRoll.gameOver <==> receiver.positions[1] + value >= BoardSize;
  }

  /** What an online turn puts on the wire: the roll, then the report of
      the move. */
  lemma OnlineTurnMessages(mover: Game, value: int)
    requires mover.Valid()
    requires mover.isOnlineGame && !RollBlocked(mover) && mover.currentPlayer == 0
    ensures var m := Roll(mover, value);
      var candidate := mover.positions[0] + value;
      && |mover.outbox| <= |m.outbox|
      && SentBy(mover, m) == [DiceRoll(value),
           if candidate >= BoardSize then PlayerMove(BoardSize, true, Some(mover.names[0]))
           else PlayerMove(Resolve(candidate), false, None)]
  {
    var m := Roll(mover, value);
    OnlineRollSendsTwoMessages(mover, value);
    assert m.outbox[..|mover.outbox|] == mover.outbox;
  }

  /** One online turn seen from both sides, with the receiver applying the
      roll when it arrives. If the move does not finish, the receiver's
      copy of the mover's piece matches the mover's own, the receiver's
      piece is untouched, and the turn has changed hands; if it finishes,
      both sides are over. */
  lemma PeersAgreeAfterAnOnlineTurn(mover: Game, receiver: Game, value: int)
    requires mover.Valid() && receiver.Valid()
    requires mover.isOnlineGame && !RollBlocked(mover) && mover.currentPlayer == 0
    requires receiver.positions[1] == mover.positions[0] && !receiver.gameOver
    ensures var m := Roll(mover, value);
      && |mover.outbox| <= |m.outbox|
      && var r := Deliver(receiver, SentBy(mover, m), OnArrival);
         && r.positions[0] == receiver.positions[0]
         && (m.gameOver <==> r.gameOver)
         && (!m.gameOver ==>
               && r.positions[1] == m.positions[0]
               && !m.isMyTurn && m.currentPlayer == 1
               && r.isMyTurn && r.currentPlayer == 0)
  {
    var m := Roll(mover, value);
    var candidate := mover.positions[0] + value;
    OnlineRollSendsTwoMessages(mover, value);
    OnlineTurnMessages(mover, value);
    var report := if candidate >= BoardSize then PlayerMove(BoardSize, true, Some(mover.names[0]))
                  else PlayerMove(Resolve(candidate), false, None);
    DeliverTwo(receiver, DiceRoll(value), report, OnArrival);
    ReceiveOnlineTurn(receiver, value, report.position, report.gameOver, report.winner);
  }

  /** The receiving side of an online turn as the page runs it: the roll
      only schedules a move, the non-final `playerMove` sets the copy and
      gives the turn back, and when the timer fires the roll moves the
      copy again from the reported cell. */
  lemma ReceiveDeferredTurn(receiver: Game, value: int, position: int)
    requires receiver.Valid() && !receiver.gameOver && receiver.pendingRolls == []
    ensures var afterRoll := Receive(receiver, DiceRoll(value), Deferred);
      var r := Receive(afterRoll, PlayerMove(position, false, None), Deferred);
      && r.positions[1] == position && !r.gameOver && r.pendingRolls == [value]
      && r.isMyTurn && r.currentPlayer == 0 && r.positions[0] == receiver.positions[0]
      && var later := RunPendingRoll(r);
         && (position + value < BoardSize ==>
               later.positions[1] == Resolve(position + value) && !later.gameOver)
         && (position + value >= BoardSize ==> later.gameOver)
  {
    var afterRoll := Receive(receiver, DiceRoll(value), Deferred);
    assert afterRoll == receiver.(pendingRolls := [value]);
    var r := Receive(afterRoll, PlayerMove(position, false, None), Deferred);
    assert r == OpponentMove(afterRoll, position, false);
    var later := RunPendingRoll(r);
    assert later == Move(r.(pendingRolls := []), value, true);
  }

  /** The same turn as the page runs it: the `playerMove` is handled at
      once and the roll's move only when its timer fires, so the receiver's
      copy, which first matches the mover's piece, is then moved a second
      time by the same roll. When that second move reaches 100 the receiver
      alone ends the game. */
  lemma ReceiverMovesTheCopyTwice(mover: Game, receiver: Game, value: int)
    requires mover.Valid() && receiver.Valid()
    requires mover.isOnlineGame && !RollBlocked(mover) && mover.currentPlayer == 0
    requires receiver.positions[1] == mover.positions[0] && !receiver.gameOver
    requires receiver.pendingRolls == []
    requires mover.positions[0] + value < BoardSize
    ensures var m := Roll(mover, value);
      && |mover.outbox| <= |m.outbox|
      && var r := Deliver(receiver, SentBy(mover, m), Deferred);
         && r.positions[1] == m.positions[0] && !m.gameOver
         && r.pendingRolls == [value]
         && var later := RunPendingRoll(r);
            && (m.positions[0] + value < BoardSize ==>
                  later.positions[1] == Resolve(m.positions[0] + value) && !later.gameOver)
            && (m.positions[0] + value >= BoardSize ==> later.gameOver)
  {
    var landed := Resolve(mover.positions[0] + value);
    OnlineRollSendsTwoMessages(mover, value);
    OnlineTurnMessages(mover, value);
    DeliverTwo(receiver, DiceRoll(value), PlayerMove(landed, false, None), Deferred);
    ReceiveDeferredTurn(receiver, value, landed);
  }

  /** A concrete online turn: both pieces at 0, the mover rolls 3 and
      stands on 3, while the receiver's copy ends on 6. */
  lemma ReceiverCopyDriftsFromTheMover(mover: Game, receiver: Game)
    requires mover.Valid() && receiver.Valid()
    requires mover.isOnlineGame && !RollBlocked(mover) && mover.currentPlayer == 0
    requires mover.positions[0] == 0 && receiver.positions[1] == 0 && !receiver.gameOver
    requires receiver.pendingRolls == []
    ensures var m := Roll(mover, 3);
      && |mover.outbox| <= |m.outbox|
      && var r := Deliver(receiver, SentBy(mover, m), Deferred);
         && m.positions[0] == 3
         && r.pendingRolls != []
         && RunPendingRoll(r).positions[1] == 6
  {
    ReceiverMovesTheCopyTwice(mover, receiver, 3);
    assert Resolve(3) == 3 && Resolve(6) == 6;
  }

  // -------------------------------------------------------- starting online

  /** As written, the start button calls `startOnlineGame` with its click
      event, so the host takes the joining side's branch: nothing is sent
      and the host's roll button stays blocked. */
  lemma StartButtonStallsTheHost(g: Game)
    requires g.Valid()
    ensures var r := StartOnline(g, ClickEvent);
      r.outbox == g.outbox && RollBlocked(r) && r.names[1] == UndefinedText
  {
  }

  /** Called without an argument, the host sends one `gameStart` carrying
      its own name and takes the first turn; the joining side, on
      receiving it, records that name and waits. Exactly one side may
      roll. */
  lemma HostStartGivesExactlyOneTurn(host: Game, joiner: Game)
    requires host.Valid() && joiner.Valid()
    requires !host.gameOver && !host.isAITurn
    ensures var h := StartOnline(host, NoArgument);
      && h.outbox == host.outbox + [GameStart(host.names[0])]
      && var j := Deliver(joiner, SentBy(host, h), Deferred);
         && j.names[1] == host.names[0]
         && !RollBlocked(h)
         && RollBlocked(j)
  {
    var h := StartOnline(host, NoArgument);
    assert SentBy(host, h) == [GameStart(host.names[0])];
  }
}
