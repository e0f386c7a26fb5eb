/** The fixed board: 100 cells, ten snakes and nine ladders, and the
    single-hop landing rule. */
module Board {

  /** Number of cells; reaching or passing it ends the game. */
  const BoardSize: int := 100

  /** Number of players at the table. */
  const Players: int := 2

  /** Snake head |-> snake tail. */
  const Snakes: map<int, int> := map[
    16 := 6, 47 := 26, 49 := 11, 56 := 53, 62 := 19,
    64 := 60, 87 := 24, 93 := 73, 95 := 75, 98 := 78]

  /** Ladder foot |-> ladder top. */
  const Ladders: map<int, int> := map[
    1 := 38, 4 := 14, 9 := 31, 21 := 42, 28 := 84,
    36 := 44, 51 := 67, 71 := 91, 80 := 100]

  /** A cell that moves a piece elsewhere when it lands there. */
  predicate IsHead(c: int) {
    c in Snakes || c in Ladders
  }

  /** Where a piece ends up after landing on `c`: at most one hop, written
      out cell by cell. `ResolveLooksUp` proves it is the lookup of the
      snake table first and the ladder table second. */
  function Resolve(c: int): (cell: int) {
    if c == 16 then 6 else if c == 47 then 26 else if c == 49 then 11
    else if c == 56 then 53 else if c == 62 then 19 else if c == 64 then 60
    else if c == 87 then 24 else if c == 93 then 73 else if c == 95 then 75
    else if c == 98 then 78
    else if c == 1 then 38 else if c == 4 then 14 else if c == 9 then 31
    else if c == 21 then 42 else if c == 28 then 84 else if c == 36 then 44
    else if c == 51 then 67 else if c == 71 then 91 else if c == 80 then 100
    else c
  }

  /** The landing rule is the table lookup: the snake's tail if a snake
      starts at `c`, otherwise the ladder's top if a ladder starts there,
      otherwise `c` itself. */
  lemma ResolveLooksUp(c: int)
    ensures Resolve(c) == if c in Snakes then Snakes[c] else if c in Ladders then Ladders[c] else c
  {
  }

  /** No cell is both a snake head and a ladder foot. */
  lemma HeadsAreDisjoint()
    ensures Snakes.Keys !! Ladders.Keys
  {
  }

  /** Every snake leads down to a cell on the board. */
  lemma SnakesLeadDown()
    ensures forall h :: h in Snakes ==> 1 <= Snakes[h] < h < BoardSize
  {
  }

  /** Every ladder leads up, at most to the last cell. */
  lemma LaddersLeadUp()
    ensures forall f :: f in Ladders ==> 1 <= f < Ladders[f] <= BoardSize
  {
  }

  /** No snake ends on a head. */
  lemma SnakesDoNotChain()
    ensures forall h :: h in Snakes ==> !IsHead(Snakes[h])
  {
  }

  /** No ladder ends on a head. */
  lemma LaddersDoNotChain()
    ensures forall f :: f in Ladders ==> !IsHead(Ladders[f])
  {
  }

  /** The configuration the landing rule relies on. */
  lemma BoardIsWellFormed()
    ensures Snakes.Keys !! Ladders.Keys
    ensures forall h :: h in Snakes ==> 1 <= Snakes[h] < h < BoardSize
    ensures forall f :: f in Ladders ==> 1 <= f < Ladders[f] <= BoardSize
    ensures forall h :: h in Snakes ==> !IsHead(Snakes[h])
    ensures forall f :: f in Ladders ==> !IsHead(Ladders[f])
  {
    HeadsAreDisjoint();
    SnakesLeadDown();
    LaddersLeadUp();
    SnakesDoNotChain();
    LaddersDoNotChain();
  }

  /** A hop changes the cell exactly on heads: down on a snake, up on a
      ladder. */
  lemma ResolveMovesOnlyOnHeads(c: int)
    ensures Resolve(c) != c <==> IsHead(c)
    ensures c in Snakes ==> Resolve(c) < c
    ensures c in Ladders ==> Resolve(c) > c
  {
    BoardIsWellFormed();
    ResolveLooksUp(c);
  }

  /** No target is itself a head, so one lookup already reaches a resting
      cell: resolving twice is resolving once. */
  lemma ResolveIdempotent(c: int)
    ensures !IsHead(Resolve(c))
    ensures Resolve(Resolve(c)) == Resolve(c)
  {
    BoardIsWellFormed();
    ResolveLooksUp(c);
    ResolveLooksUp(Resolve(c));
    if c in Snakes {
      assert Snakes[c] in Snakes.Values;
    } else if c in Ladders {
      assert Ladders[c] in Ladders.Values;
    }
  }

  /** Landing on a board cell below the last one leaves the piece on the
      board, and the last cell is reached by a hop only from the ladder
      at 80. */
  lemma ResolveStaysOnBoard(c: int)
    requires 1 <= c < BoardSize
    ensures 1 <= Resolve(c) <= BoardSize
    ensures Resolve(c) == BoardSize <==> c == 80
  {
    BoardIsWellFormed();
  }
}
