# Snakes and Ladders: the game engine

This project models the engine of a browser game of Snakes and Ladders
(`script.js`) and proves properties of it. The page renders the board and
talks to a peer over PeerJS; under that sits a small engine of module-level
variables:

- the current player;
- the two piece positions;
- the game-over and AI-turn flags;
- the player names;
- the online roster;
- the online turn flag;
- the opponent's rolls whose delayed move has not run yet.

The engine's handlers change these variables:

- `movePlayer` applies a roll. Any raw sum of 100 or more ends the game without moving the piece; there is no bounce-back. Otherwise the piece takes at most one snake or ladder hop and the turn passes.
- `rollDice` applies a roll unless the game is over, the computer is playing, or the online opponent holds the turn.
- `aiPlay` and `strategicAIMove` make the computer's move: a greedy choice of the die value, or a random roll, chosen by difficulty.
- `resetGame` restarts the game.
- `handleOnlineData` receives the opponent's messages. It dispatches to `handleOpponentMove`, `startOnlineGame` and the roster updates.

The model has five modules:

- `Board`: the snake and ladder tables, the one-hop landing rule `Resolve`, and the facts about the board that the rule relies on.
- `Strategy`: the computer's greedy heuristic. It has a specification (`Consider`, `Scan`, `StrategicChoice`) and a method `StrategicAIMove` that performs the loop of the source and is proved equal to it. `AiDice` chooses between the strategy and a random roll by difficulty.
- `Wire`: the peer messages, and the roster of connected opponents with the start-button rule.
- `Rules`: the engine's variables as one value `Game`, and every handler as a function from `Game` to `Game`. Lemmas here state what the handlers promise, alone and in sequence, and also for both peers of an online game.
- `Engine`: the class `GameEngine`. Its fields are the module-level variables and its methods update them in place, as the handlers do. Each method is proved to compute the matching function of `Rules`: after the call, `State()` equals that function applied to the state before the call.

The random values, the outcome of the difficulty draw and the dice animation's final value are parameters. Sending a message appends it to the `outbox` sequence. A received `diceRoll` is queued in `pendingRolls`, and its delayed move is the separate step `RunPendingRoll`, as the page's one-second timer makes it.

## Model

| member | source | states |
|---|---|---|
| Board.Resolve | script.js:635-643 | the landing rule as a chain of cell tests, with no contract of its own; `Board.ResolveLooksUp` states that it is the snake-then-ladder table lookup |
| Board.ResolveLooksUp | script.js:635-643 | the landing cell is the snake's tail if a snake starts there, otherwise the ladder's top if a ladder starts there, otherwise the cell itself |
| Board.HeadsAreDisjoint | script.js:6-29 | no cell is both a snake head and a ladder foot |
| Board.SnakesLeadDown | script.js:6-17 | every snake leads from a head below 100 down to a cell of at least 1 |
| Board.LaddersLeadUp | script.js:19-29 | every ladder leads up from its foot to a cell of at most 100 |
| Board.SnakesDoNotChain | script.js:6-29 | no snake ends on a snake head or a ladder foot |
| Board.LaddersDoNotChain | script.js:6-29 | no ladder ends on a snake head or a ladder foot |
| Board.BoardIsWellFormed | script.js:6-29 | all five board facts together |
| Board.ResolveMovesOnlyOnHeads | script.js:635-643 | landing changes the cell exactly when it is a head, down on a snake and up on a ladder |
| Board.ResolveIdempotent | script.js:635-643 | the cell reached by one hop is not a head, so a second lookup changes nothing |
| Board.ResolveStaysOnBoard | script.js:635-645 | from a cell in 1..99 the piece stays in 1..100, and it reaches 100 only from the ladder at 80 |
| Strategy.Raise | script.js:590-593 | a look-ahead test never lowers the accumulator, leaves it at its old value or the die value, and moves it only when the test holds and the die value is larger |
| Strategy.LadderStep | script.js:574-579 | the accumulator stays or becomes the die value, and it changes only when a ladder starts on the landing cell and its top lies above the current cell plus the accumulator |
| Strategy.SnakeStep | script.js:581-587 | the accumulator stays or becomes the die value, and it changes only when the snake on the landing cell ends below the current cell while the accumulator is still 1 |
| Strategy.Consider | script.js:574-603 | after examining one die value that does not win, the accumulator lies between its old value and that die value, and is one of the two |
| Strategy.Scan | script.js:567-606 | the scan over the remaining die values never lowers the accumulator and returns a die face |
| Strategy.StrategicChoice | script.js:563-607 | the greedy choice is a die face in 1..6 |
| Strategy.ScanStep | script.js:567-604 | a die value that does not win passes the updated accumulator on to the next die value |
| Strategy.ScanTakesWin | script.js:570-572 | once the winning roll is among the values left to examine, the scan returns it |
| Strategy.StrategicChoiceIsAFace | script.js:563-607 | the greedy choice is in 1..6, and it is the roll that lands exactly on 100 whenever one exists |
| Strategy.StrategicChoiceNeverOvershoots | script.js:563-607 | from a cell on the board, the greedy choice never carries the piece past 100 |
| Strategy.RaiseIfHeadWithin | script.js:589-603 | the `for..in` scan over the heads raises the accumulator to the die value exactly when some head lies in the window; the order of the keys does not matter |
| Strategy.ConsiderDice | script.js:574-603 | the body of the loop for one die value computes `Consider`: the ladder test, then the snake test or the two look-ahead scans |
| Strategy.StrategicAIMove | script.js:563-607 | the loop returns the greedy choice: a value in 1..6, and the winning roll when there is one |
| Strategy.AiDice | script.js:528-548 | easy play, or a failed draw, uses the random roll; medium and hard play with a successful draw use the greedy choice; either way the value is in 1..6 |
| Wire.AddPlayer | script.js:214-221 | the roster gains the id as a connected member under the given name, and every other entry is kept |
| Wire.RemovePlayer | script.js:224-228 | the roster loses the id, and every other entry is kept |
| Wire.RemoveUndoesAdd | script.js:214-228 | removing an opponent who was added to a roster without them gives back that roster |
| Wire.PlayerCount | script.js:232 | the room counts oneself plus the roster, so at least one player |
| Wire.StartButtonShown | script.js:243-247 | the start button is shown exactly to a host with one opponent in the roster |
| Wire.StartButtonFollowsTheOpponent | script.js:214-247 | a host alone sees the button once an opponent joins and loses it when they leave; a joiner never sees it |
| Rules.Initial | script.js:31-47 | the state the page loads with is valid and on the board: both pieces at 0, player 1 to move, no flag raised, the default names, an empty roster, nothing sent and no roll pending; mode, difficulty and host role as chosen |
| Rules.Send | script.js:207-211 | the outbox grows by one, its old messages stay in front, the new last message is the one sent, and every other variable is unchanged |
| Rules.Finish | script.js:617-633 | a finishing move ends the game and changes no position, no current player and no online turn flag |
| Rules.Place | script.js:645-663 | placing a piece sets exactly that piece to the landed cell and keeps the game-over flag |
| Rules.Mover | script.js:611 | the piece a move applies to is one of the two pieces: piece 2 for the opponent, otherwise the current player's |
| Rules.Move | script.js:610-665 | a move keeps two pieces, two names and a valid current player |
| Rules.RollBlocked | script.js:485 | the guard of `rollDice`: the game is over, the computer is playing, or the online opponent holds the turn (a predicate without a contract) |
| Rules.Roll | script.js:484-520 | a roll keeps the state well-formed |
| Rules.AiTurn | script.js:523-560 | the computer's move keeps the state well-formed |
| Rules.Reset | script.js:790-812 | a reset keeps the state valid with both pieces on the board; `Rules.ResetStartsOver` states where they are |
| Rules.OpponentMove | script.js:343-357 | receiving a move keeps the state well-formed |
| Rules.StartOnline | script.js:284-303 | starting an online game keeps the state well-formed |
| Rules.HandleData | script.js:179-204 | handling a message keeps the state well-formed |
| Rules.DiceRollIsQueued | script.js:335-340 | a received `diceRoll` only appends its value to the queue of pending rolls; no piece moves and nothing else changes |
| Rules.RunPendingRoll | script.js:335-340 | the timer firing takes the oldest queued roll off the queue and keeps the state well-formed |
| Rules.Receive | script.js:179-204 | receiving one message keeps the state well-formed, whether the roll is queued as the page does or applied on arrival |
| Rules.PlayerName | script.js:668-676 | the computer is named "AI" as player 2; every other player is named by their own entry, so the online branch adds nothing |
| Rules.Deliver | script.js:179-204 | receiving a sequence of messages keeps the state well-formed |
| Rules.DeliverTwo | script.js:179-204 | receiving two messages is handling the first and then the second |
| Rules.SendPutsOneMessage | script.js:207-211 | what one send adds to the outbox is exactly its message, and two sends add both messages in order |
| Rules.RollAll | script.js:484-520 | a sequence of rolls keeps the state well-formed |
| Rules.MoveReachingTheEndFinishes | script.js:617-633 | a raw sum of 100 or more ends the game and changes no position, no turn and no online turn flag; only the local player of an online game reports the win, naming itself |
| Rules.MoveTakesOneHop | script.js:611-645 | below 100 the mover lands on the snake's tail, else the ladder's top, else the sum itself; it lands on no head; the other piece and the game-over flag are unchanged |
| Rules.LadderToTheEndDoesNotFinish | script.js:617-645 | in a local game, any roll whose raw sum is 80 climbs the ladder to 100 without ending the game, and the turn passes |
| Rules.LocalMovePassesTheTurn | script.js:660-663 | in a local game a move that does not finish passes the turn to the other player and sends nothing |
| Rules.OnlineMoveHandsOverTheTurn | script.js:648-659 | online, the local player's move that does not finish sends exactly one non-final `playerMove` with the new position and gives the turn away |
| Rules.OpponentMoveKeepsTheTurn | script.js:611-663 | an opponent's move leaves one's own piece, the turn and the outbox as they were |
| Rules.MoveKeepsPiecesOnBoard | script.js:610-665 | a forward move keeps both pieces within 0..100 |
| Rules.PlaceKeepsPiecesOnBoard | script.js:645-663 | putting a piece on a cell of the board keeps both pieces on the board |
| Rules.BlockedRollChangesNothing | script.js:485 | when the game is over, the computer is playing, or the opponent holds the online turn, a roll changes nothing |
| Rules.RollsKeepPiecesOnBoard | script.js:484-520 | any sequence of die rolls keeps both pieces within 0..100 |
| Rules.FinishedGameIgnoresRolls | script.js:485 | once the game is over, no sequence of rolls changes anything |
| Rules.ComputerRepliesToEveryHumanMove | script.js:509-559 | against the computer, a human roll that does not finish gives the computer the turn and blocks the button; the computer's move clears the flag and, unless it finishes, gives the turn back |
| Rules.ResetStartsOver | script.js:790-799 | a reset puts both pieces at 0, gives player 1 the turn, clears both flags, and online gives the first turn to the host; names, roster and outbox are kept |
| Rules.InitialIsReset | script.js:790-799 | resetting the state the page loads with gives that state back |
| Rules.ResetIsIdempotent | script.js:790-799 | resetting twice is resetting once |
| Rules.OpponentMoveMessage | script.js:343-356 | a `playerMove`, whatever winner it names, sets the opponent's piece, keeps one's own and sends nothing; a non-final one gives the turn back, a final one ends the game and keeps the turn |
| Rules.IgnoredMessages | script.js:179-204 | chat messages and unknown types change nothing |
| Rules.OpponentMoveSendsNothing | script.js:610-665 | moving the opponent's piece never sends a message |
| Rules.ReceivingSendsNothing | script.js:179-204 | receiving a message never sends one, whether its roll is queued or applied on arrival, and neither does the delayed move of a queued roll |
| Rules.PendingRollSendsNothing | script.js:335-340 | the delayed move of a queued roll never sends a message |
| Rules.OnlineRollSendsTwoMessages | script.js:501-507 | an online roll sends the die value and then one `playerMove`; below 100 it places the piece and gives the turn away, otherwise it ends the game and reports the win |
| Rules.ReceiveOnlineTurn | script.js:343-357 | with the roll applied on arrival (the corrected timing): the receiver's own piece is untouched; its copy of the opponent's piece ends where the `playerMove` says; a final message ends the game; a non-final one gives the turn back, and the game is over only if the roll itself reached 100 |
| Rules.OnlineTurnMessages | script.js:501-507 | an online turn puts exactly two messages on the wire: the die value, then the final `playerMove` naming the winner if the sum reaches 100, otherwise the non-final one with the landing cell |
| Rules.PeersAgreeAfterAnOnlineTurn | script.js:335-357 | with the roll applied on arrival (the corrected timing), after one online turn both sides agree whether the game is over, the receiver's own piece is unchanged, and if the game goes on the receiver's copy of the mover's piece matches the mover's and the turn has changed hands |
| Rules.ReceiveDeferredTurn | script.js:335-357 | as written, the roll is only queued; the non-final `playerMove` sets the copy, leaves the receiver's own piece alone and gives the turn back; when the timer fires the roll moves the copy again from the reported cell, ending the game if that reaches 100 |
| Rules.ReceiverMovesTheCopyTwice | script.js:335-340 | as written, after a non-finishing online turn the receiver's copy first matches the mover's piece with the roll still queued; when the timer fires the same roll moves the copy a second time, and the receiver alone ends the game if that reaches 100 |
| Rules.ReceiverCopyDriftsFromTheMover | script.js:335-340 | as written, with both copies at 0 and a roll of 3, the mover stands on 3 and the receiver's copy ends on 6 |
| Rules.StartButtonStallsTheHost | script.js:417 | the start button as wired sends nothing, leaves the host unable to roll, and names the opponent "undefined" |
| Rules.HostStartGivesExactlyOneTurn | script.js:284-303 | called without an argument, the host sends one `gameStart` with its own name; the joiner records that name; exactly one of the two may roll |
| Engine.LandingCell | script.js:635-643 | the two table lookups of `movePlayer` compute `Resolve` |
| Engine.GameEngine.constructor | script.js:31-47 | the fields start as `Rules.Initial` |
| Engine.GameEngine.SendData | script.js:207-211 | the new state is `Rules.Send` of the old one |
| Engine.GameEngine.MovePlayer | script.js:610-665 | the new state is `Rules.Move` of the old one |
| Engine.GameEngine.FinishGame | script.js:617-633 | the new state is the finishing branch of `Rules.Move` |
| Engine.GameEngine.PlacePiece | script.js:645-663 | the new state is the placing branch of `Rules.Move` |
| Engine.GameEngine.RollDice | script.js:484-520 | the new state is `Rules.Roll` of the old one |
| Engine.GameEngine.AiPlay | script.js:523-560 | the new state is `Rules.AiTurn` of the old one, with the die value computed by `StrategicAIMove` |
| Engine.GameEngine.AiDiceValue | script.js:528-548 | the die value picked is `Strategy.AiDice` for the engine's difficulty and the computer's cell |
| Engine.GameEngine.ResetGame | script.js:790-799 | the new state is `Rules.Reset` of the old one |
| Engine.GameEngine.HandleOpponentMove | script.js:343-357 | the new state is `Rules.OpponentMove` of the old one |
| Engine.GameEngine.StartOnlineGame | script.js:284-303 | the new state is `Rules.StartOnline` of the old one |
| Engine.GameEngine.StartButtonClicked | script.js:417 | the click handler as wired runs the joiner's branch: nothing is sent and the host cannot roll |
| Engine.GameEngine.HostStartsGame | script.js:284-303 | the host's branch sends `gameStart` with the host's name and gives the host the turn |
| Engine.GameEngine.AddOnlinePlayer | script.js:214-221 | only the roster changes, as `Wire.AddPlayer` says |
| Engine.GameEngine.RemoveOnlinePlayer | script.js:224-228 | only the roster changes, as `Wire.RemovePlayer` says |
| Engine.GameEngine.HandleOnlineData | script.js:179-204 | the new state is `Rules.HandleData` of the old one |
| Engine.GameEngine.HandleOpponentDiceRoll | script.js:335-340 | the roll is queued and nothing else changes |
| Engine.GameEngine.RunPendingRoll | script.js:337-339 | the new state is `Rules.RunPendingRoll` of the old one: the oldest queued roll moves the opponent's piece |
| Engine.GameEngine.ReceiveOnArrival | script.js:179-204 | the corrected receipt: the new state is `Rules.Receive` of the old one with the roll applied on arrival |
| Engine.GameEngine.StartButtonVisible | script.js:243-247 | the start button is shown exactly to a host with one opponent |

## Left out

- Rendering: the board, the piece positions, the status texts, the modals, the messages on landing, and the event wiring other than the start button. These only write to the document.
- Mode and name selection (`handleGameModeChange`, `handleAIDifficultyChange`, `startLocalGame`, `changePlayerNames`). Room handling (`createRoom`, `joinRoom`). The mode, the difficulty and the host role are constructor parameters of `GameEngine` and of `Rules.Initial` instead.
- PeerJS: connecting, `setupConnection` and the `conn && conn.open` test in `sendData`. Sending is modelled as appending to `outbox`, whether or not a connection is open.
- Timers: the dice animation, the delay before the computer's move and before an opponent's roll is applied, and the winner announcement. Each delayed continuation runs as a separate step: `RollDice` takes the animation's final value, `AiPlay` is its own call, and an opponent's `diceRoll` is queued until `RunPendingRoll` fires it. The lemmas about an online turn deliver both messages before the timer fires, which is the order the page produces, since the two messages are sent back to back and the timer waits one second. Other interleavings of timers with messages and clicks are not modelled.
- Rules.Reset: the queue of pending rolls is kept, because a reset does not cancel the page's timers.
- Rules.Move: the winner announcement (`declareWinner`, `declareWinnerOnline`) resets the game 500 ms after a finishing move. The model keeps `gameOver` set after the move and leaves the reset to `Reset`, because the alert and the timer are outside the engine.
- Randomness: `Math.random` rolls and the 0.7 and 0.9 strategy thresholds become the parameters `randomValue` and `useStrategy`. `generateRoomId` is a float-to-text conversion of a random number.
- Strategy.AiDice: the `default` branch of the difficulty switch is unreachable, because `Difficulty` has only the three values the selector offers.
- Browser storage, the colour theme, copying the room id, and chat display. A chat message changes nothing in the engine.
- Rules.StartOnline: the click event's missing `opponentName` is JavaScript's `undefined`. The model records it as the text "undefined". Template strings such as the status line and the winner alert print it that way. Assigning it to `textContent` (script.js:327, 721) shows empty text instead, and the model does not tell these apart.

## Findings

| source | as written | input that shows it | evidently intended | confidence | as-written member | corrected member |
|---|---|---|---|---|---|---|
| script.js:417 | The start button's click handler is `startOnlineGame` itself, so it receives the click event as `data`. The event is truthy, so the host takes the joiner's branch: it sends no `gameStart`, sets `isMyTurn` to false and sets the opponent's name to `undefined`. | A host with one opponent in the room clicks the start button. | The host branch: send `gameStart` with the host's name and take the first turn, as a call without an argument does. | high, not executed | Rules.StartButtonStallsTheHost | Rules.HostStartGivesExactlyOneTurn |
| script.js:335-340 | An opponent's `diceRoll` moves the receiver's copy of the mover's piece one second after it arrives, while the `playerMove` sent right after it sets that copy at once. The copy is therefore moved by the same roll twice: first to the mover's landing cell, then on from there when the timer fires. If the second move reaches 100, only the receiver ends the game. | An online game with both pieces at 0; the mover rolls 3. The mover stands on 3; the receiver's copy is set to 3 and then moved to 6. | The receiver's copy matches the mover's piece after each turn. Applying the roll on arrival (or not applying it at all, since `playerMove` carries the position) gives that. | high, not executed | Rules.ReceiverCopyDriftsFromTheMover | Rules.PeersAgreeAfterAnOnlineTurn |
