/** The computer opponent: the greedy dice choice and the choice between
    it and a plain random roll by difficulty. */
module Strategy {
  import opened Board

  /** Faces of the die. */
  const Faces: int := 6

  datatype Difficulty = Easy | Medium | Hard

  /** Head |-> target, as in the board's snake and ladder tables. The
      heuristic below is stated for any such tables; the game applies it
      to the fixed board. */
  type Hops = map<int, int>

  /** Some key of `heads` lies in `lo..hi`. */
  predicate HeadWithin(heads: set<int>, lo: int, hi: int) {
    exists k :: k in heads && lo <= k <= hi
  }

  /** `dice` replaces `best` when `cond` holds and `dice` is larger. The
      accumulator never goes down, and it moves to `dice` only under that
      test. */
  function Raise(cond: bool, dice: int, best: int): (r: int)
    ensures best <= r && (r == best || r == dice)
    ensures r != best ==> cond && dice > best
  {
    if cond && dice > best then dice else best
  }

  /** A ladder at the landing cell whose top lies above `position + best`
      makes `dice` the best move. */
  function LadderStep(ladders: Hops, position: int, dice: int, best: int): (r: int)
    ensures r == best || r == dice
    ensures r != best ==> position + dice in ladders && ladders[position + dice] > position + best
  {
    var landing := position + dice;
    if landing in ladders && ladders[landing] > position + best then dice else best
  }

  /** A snake at the landing cell whose tail lies below `position` makes
      `dice` the best move while the best move is still 1. */
  function SnakeStep(snakes: Hops, position: int, dice: int, best: int): (r: int)
    requires position + dice in snakes
    ensures r == best || r == dice
    ensures r != best ==> snakes[position + dice] < position && best == 1
  {
    if snakes[position + dice] < position && best == 1 then dice else best
  }

  /** The value of the best-move accumulator after examining `dice` from
      `position` without finding a winning roll: the ladder test, then
      either the snake test (and the look-ahead is skipped) or, on any
      other landing cell, the look-ahead for a ladder foot within
      `landing..landing+6` and for a snake head within
      `landing+1..landing+6`. */
  function Consider(snakes: Hops, ladders: Hops, position: int, dice: int, best: int): (r: int)
    requires 1 <= best <= dice
    ensures best <= r <= dice
    ensures r == best || r == dice
  {
    var landing := position + dice;
    var afterLadder := LadderStep(ladders, position, dice, best);
    if landing in snakes then
      SnakeStep(snakes, position, dice, afterLadder)
    else
      var afterLadderAhead := Raise(HeadWithin(ladders.Keys, landing, landing + Faces), dice, afterLadder);
      Raise(HeadWithin(snakes.Keys, landing + 1, landing + Faces), dice, afterLadderAhead)
  }

  /** The scan over the dice values `dice..6` with accumulator `best`: the
      first roll that lands exactly on the last cell is taken at once,
      otherwise the accumulator is returned. It never goes below `best`. */
  function Scan(snakes: Hops, ladders: Hops, position: int, dice: int, best: int): (r: int)
    requires 1 <= dice <= Faces + 1 && 1 <= best <= dice && best <= Faces
    ensures best <= r <= Faces
    decreases Faces + 1 - dice
  {
    if dice > Faces then best
    else if position + dice == BoardSize then dice
    else Scan(snakes, ladders, position, dice + 1, Consider(snakes, ladders, position, dice, best))
  }

  /** The dice value the strategic opponent picks at `position`. */
  function StrategicChoice(snakes: Hops, ladders: Hops, position: int): (r: int)
    ensures 1 <= r <= Faces
  {
    Scan(snakes, ladders, position, 1, 1)
  }

  /** One step of the scan: a roll that does not win passes the updated
      accumulator on to the next dice value. */
  lemma ScanStep(snakes: Hops, ladders: Hops, position: int, dice: int, best: int)
    requires 1 <= dice <= Faces && 1 <= best <= dice && best <= Faces
    requires position + dice != BoardSize
    ensures Scan(snakes, ladders, position, dice, best) == Scan(snakes, ladders, position, dice + 1, Consider(snakes, ladders, position, dice, best))
  {
  }

  /** Once the winning roll is among the values still to be examined, the
      scan returns it. */
  lemma {:induction false} ScanTakesWin(snakes: Hops, ladders: Hops, position: int, dice: int, best: int)
    requires 1 <= dice <= Faces + 1 && 1 <= best <= dice && best <= Faces
    requires dice <= BoardSize - position <= Faces
    ensures Scan(snakes, ladders, position, dice, best) == BoardSize - position
    decreases Faces + 1 - dice
  {
    if position + dice != BoardSize {
      ScanTakesWin(snakes, ladders, position, dice + 1, Consider(snakes, ladders, position, dice, best));
    }
  }

  /** The strategic choice is a die face, and it is the winning roll
      whenever one exists. */
  lemma StrategicChoiceIsAFace(snakes: Hops, ladders: Hops, position: int)
    ensures 1 <= StrategicChoice(snakes, ladders, position) <= Faces
    ensures 1 <= BoardSize - position <= Faces ==>
              position + StrategicChoice(snakes, ladders, position) == BoardSize
  {
    if 1 <= BoardSize - position <= Faces {
      ScanTakesWin(snakes, ladders, position, 1, 1);
    }
  }

  /** From a cell on the board the strategic choice never carries the
      piece past the last cell. */
  lemma StrategicChoiceNeverOvershoots(snakes: Hops, ladders: Hops, position: int)
    requires 0 <= position < BoardSize
    ensures position + StrategicChoice(snakes, ladders, position) <= BoardSize
  {
    StrategicChoiceIsAFace(snakes, ladders, position);
  }

  /** A member of a non-empty set. */
  lemma SomeElement(s: set<int>) returns (x: int)
    requires s != {}
    ensures x in s
  {
    if forall y :: y !in s {
      assert false;
    }
    x :| x in s;
  }

  /** One `for..in` scan over the heads of the snakes or of the ladders:
      `best` becomes `dice` when some head lies in `lo..hi` and `dice` is
      larger. The keys are visited in any order; the result does not
      depend on it. */
  method RaiseIfHeadWithin(heads: set<int>, lo: int, hi: int, dice: int, best: int)
    returns (r: int)
    ensures r == Raise(HeadWithin(heads, lo, hi), dice, best)
  {
    r := best;
    var rest := heads;
    ghost var seen: set<int> := {};
    while rest != {}
      invariant seen + rest == heads && seen !! rest
      invariant HeadWithin(seen, lo, hi) && dice > best ==> r == dice
      invariant !(HeadWithin(seen, lo, hi) && dice > best) ==> r == best
      decreases rest
    {
      ghost var member := SomeElement(rest);
      var head :| head in rest;
      if lo <= head && head <= hi {
        if dice > r {
          r := dice;
        }
        assert head in seen + {head};
      }
      assert HeadWithin(seen + {head}, lo, hi) ==> HeadWithin(seen, lo, hi) || lo <= head <= hi;
      rest := rest - {head};
      seen := seen + {head};
    }
  }

  /** The body of the scan for one dice value that does not win: the
      ladder test, then the snake test or the look-ahead. */
  method ConsiderDice(snakes: Hops, ladders: Hops, position: int, dice: int, best: int)
    returns (r: int)
    requires 1 <= best <= dice
    ensures r == Consider(snakes, ladders, position, dice, best)
  {
    var landing := position + dice;
    r := best;
    if landing in ladders {
      var ladderEnd := ladders[landing];
      if ladderEnd > position + r {
        r := dice;
      }
    }
    assert r == LadderStep(ladders, position, dice, best);
    if landing in snakes {
      var snakeEnd := snakes[landing];
      if snakeEnd < position && r == 1 {
        r := dice;
      }
      return;
    }
    r := RaiseIfHeadWithin(ladders.Keys, landing, landing + Faces, dice, r);
    r := RaiseIfHeadWithin(snakes.Keys, landing + 1, landing + Faces, dice, r);
  }

  /** The opponent's greedy choice, examining the dice values 1 to 6 in
      turn with the accumulator `best`. */
  method StrategicAIMove(snakes: Hops, ladders: Hops, position: int) returns (choice: int)
    ensures choice == StrategicChoice(snakes, ladders, position)
    ensures 1 <= choice <= Faces
    ensures 1 <= BoardSize - position <= Faces ==> position + choice == BoardSize
  {
    StrategicChoiceIsAFace(snakes, ladders, position);
    ghost var goal := StrategicChoice(snakes, ladders, position);
    var best := 1;
    for dice := 1 to Faces + 1
      invariant 1 <= best <= dice && best <= Faces
      invariant Scan(snakes, ladders, position, dice, best) == goal
    {
      if position + dice == BoardSize {
        return dice;
      }
      ScanStep(snakes, ladders, position, dice, best);
      best := ConsiderDice(snakes, ladders, position, dice, best);
    }
    choice := best;
  }

  /** The dice value the computer opponent plays. `useStrategy` stands for
      the outcome of the random draw against the difficulty's threshold
      (0.7 for medium, 0.9 for hard) and `randomValue` for the uniform
      roll used otherwise. */
  function AiDice(difficulty: Difficulty, useStrategy: bool, randomValue: int, position: int): (d: int)
    requires 1 <= randomValue <= Faces
    ensures 1 <= d <= Faces
    ensures difficulty != Easy && useStrategy ==> d == StrategicChoice(Snakes, Ladders, position)
    ensures difficulty == Easy || !useStrategy ==> d == randomValue
  {
    StrategicChoiceIsAFace(Snakes, Ladders, position);
    match difficulty
    case Easy => randomValue
    case Medium | Hard => if useStrategy then StrategicChoice(Snakes, Ladders, position) else randomValue
  }
}
