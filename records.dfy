/** The value records of the game state engine (src/Gamestate.py:6-15). */
module Records {

  datatype Option<T> = None | Some(value: T)

  /** Card(character, number, side); the empty card has all three fields unset. */
  datatype Card = Card(character: Option<char>, number: Option<int>, side: Option<int>)

  /** The card returned for a cell whose stack is empty: Card(None, None, None). */
  const EmptyCard: Card := Card(None, None, None)

  /** One entry of a cell stack. A freshly created board holds the coordinate
      tuple (i, j) in every cell, which is not a card. */
  datatype Entry = Filler(i: int, j: int) | C(card: Card)

  /** A move from cell start = (i, j) to cell end = (i, j); each is (column, row). */
  datatype Move = Move(start: (int, int), end: (int, int))

  /** Handle of the strategy that plays one side; the engine never calls it. */
  datatype Strategy = Strategy(id: nat)

  /** PlayerData(ai, deck): the strategy handle and the remaining deck. */
  datatype PlayerData = PlayerData(ai: Strategy, deck: seq<Card>)

  /** Outcome of a draw: `EmptyDeckError` stands for the IndexError that
      popping an exhausted deck raises. */
  datatype Status = Ok | EmptyDeckError
}
