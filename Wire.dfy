/** What the two peers exchange, and the roster of connected opponents. */
module Wire {

  datatype Option<+T> = None | Some(value: T)

  /** The messages of the peer protocol, one constructor per `type`
      discriminator the receiver dispatches on; `Unknown` stands for any
      other discriminator. */
  datatype Message =
    | PlayerInfo(playerId: string, playerName: string)
    | GameStart(opponentName: string)
    | DiceRoll(value: int)
    | PlayerMove(position: int, gameOver: bool, winner: Option<string>)
    | ChatMessage(player: string, text: string)
    | Unknown(kind: string)

  /** One entry of the opponent roster. */
  datatype Member = Member(name: string, connected: bool)

  /** Opponents by peer id. */
  type Roster = map<string, Member>

  /** Records `id` as a connected opponent called `name`, replacing any
      earlier entry for the same id. */
  function AddPlayer(roster: Roster, id: string, name: string): (r: Roster)
    ensures r.Keys == roster.Keys + {id}
    ensures r[id] == Member(name, true)
    ensures forall other :: other in roster && other != id ==> r[other] == roster[other]
  {
    roster[id := Member(name, true)]
  }

  /** Forgets `id`; an unknown id leaves the roster as it was. */
  function RemovePlayer(roster: Roster, id: string): (r: Roster)
    ensures r.Keys == roster.Keys - {id}
    ensures forall other :: other in r ==> r[other] == roster[other]
  {
    roster - {id}
  }

  /** Removing an opponent undoes adding it when it was not there before. */
  lemma RemoveUndoesAdd(roster: Roster, id: string, name: string)
    requires id !in roster
    ensures RemovePlayer(AddPlayer(roster, id, name), id) == roster
  {
  }

  /** The number of players in the room: the opponents plus oneself. */
  function PlayerCount(roster: Roster): (n: int)
    ensures n >= 1
  {
    |roster| + 1
  }

  /** The host may start the game exactly when the room holds two
      players. */
  function StartButtonShown(isHost: bool, roster: Roster): (shown: bool)
    ensures shown <==> isHost && |roster| == 1
  {
    isHost && PlayerCount(roster) == 2
  }

  /** A host alone in a room sees the start button once an opponent joins,
      and loses it when that opponent leaves again. */
  lemma StartButtonFollowsTheOpponent(id: string, name: string)
    ensures StartButtonShown(true, AddPlayer(map[], id, name))
    ensures !StartButtonShown(true, RemovePlayer(AddPlayer(map[], id, name), id))
    ensures !StartButtonShown(false, AddPlayer(map[], id, name))
  {
    var joined := AddPlayer(map[], id, name);
    assert joined.Keys == {id};
    assert RemovePlayer(joined, id).Keys == {};
  }
}
