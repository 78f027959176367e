# Ebbe und Flut: the game state engine in Dafny

This project models the game state engine of the two-player card game
"Ebbe und Flut" (src/Gamestate.py). It covers these parts:

- the `Card`, `Move` and `PlayerData` records;
- the two 25-card decks (characters A to E, numbers 1 to 5, tagged with a side, shuffled);
- the 5x5 board of cell stacks and its top-card view;
- the coordinate mirror that shows the second player the board rotated by half a turn;
- the turn state machine (`_new_turn`, `_draw_card`) over `turn_number`,
  `active_player`, `card_drawn`, `card_payed` and `card`;
- the clash-based move generator `_possible_moves`.

Modules:

- `Records` (records.dfy): the records. A cell entry is `Filler(i, j)` or `C(card)`. A fresh board holds the
  coordinate tuple `(i, j)` in each cell. That tuple is not a card.
- `Deck` (deck.dfy): the ordered deck, `random.shuffle` as a Fisher-Yates
  shuffle over supplied random draws, and `_create_new_deck`.
- `Board` (board.dfy): the board as `field[j][i]` (row j, column i), the
  top-card view, `_mirror_coords`, the mirrored view and the clash rule.
- `Engine` (engine.dfy): the class `Gamestate`. Its fields are the ones the
  source updates. DrawCard and NewTurn are methods that change them. The
  move generator is a method with the source's nested loops. The queries are
  functions that read the object.

The object invariant `Gamestate.Valid` states:

- there are two players;
- `active_player` is 0 or 1;
- each deck is a part of its own full deck: distinct cards of that side from A1 to E5;
- the card in hand is a deck card;
- the board is 5x5.

The model follows the code as written. Points a reader might not expect:

- A row clash emits the move `(i, j) -> (i, j + 1)` (src/Gamestate.py:67): the row index grows, not the column index.
- The column loop compares the card with `row[i]`, which is the card itself (src/Gamestate.py:71).
  It never emits a move. `ScanCell` keeps that loop, and its contract shows it adds nothing.
- A clash partner may be any unequal card in the row: an opponent's card, or the empty card if its
  character or number matches.
- `_mirror_coords(i, j)` returns `(4 - j, 4 - i)`. The result is used as `[row][column]` indexes
  (src/Gamestate.py:98), so the second player's entry at row j, column i is the top card at row 4 - j,
  column 4 - i.
- The game starts with `active_player = 1`, so the first `_new_turn` makes player 0 active (`FirstTurn`).
- `_draw_card` pops the last element of the deck.
- There is no placement, move execution, won pile or score in this file.

Two consequences of the code as written. Both are stated in the model:

- `set_card` is a stub, so nothing is ever pushed onto the board. Every visible entry stays a filler.
  `_possible_moves` reads `side` of the first one (src/Gamestate.py:53), so it cannot run on any game
  the constructor creates (`Board.FreshFieldNotFaultless`). Its precondition `Faultless` names what it
  needs.
- Nothing sets `card_payed` again, so after one successful `_new_turn` the next call fails its assertion
  (NewTurn ensures `!cardPayed`).

## Model

| member | source | states |
|---|---|---|
| `Deck.OrderedDeck` | src/Gamestate.py:144 | the comprehension yields 25 cards, each with a character A..E, a number 1..5 and the requested side |
| `Deck.OrderedDeckDistinct` | src/Gamestate.py:144 | no card of the ordered deck occurs twice |
| `Deck.OrderedDeckIsCrossProduct` | src/Gamestate.py:144 | each (character, number) pair of {A..E} x {1..5} occurs exactly once with the side, and nothing else occurs |
| `Deck.PermutationIsPartOfDeck` | src/Gamestate.py:144-146 | any permutation of the ordered deck is distinct and made of that side's deck cards |
| `Deck.PartOfDeckSize` | src/Gamestate.py:177 | a deck of distinct deck cards of one side holds at most 25 cards |
| `Deck.PopKeepsPartOfDeck` | src/Gamestate.py:136 | popping the last card keeps the rest distinct and of that side, and the popped card is a deck card of that side |
| `Deck.Shuffle` | src/Gamestate.py:145 | the in-place shuffle permutes the array (same multiset), whatever the random draws |
| `Deck.CreateNewDeck` | src/Gamestate.py:139-146 | the new deck has 25 cards, is a permutation of the ordered deck, all of the given side, each pair exactly once |
| `Board.EmptyField` | src/Gamestate.py:102-104 | the fresh board is 5x5 and each cell stack is exactly the one filler entry (i, j) |
| `Board.TopCardField` | src/Gamestate.py:35-39 | same shape as the board; each entry is the last entry of its stack, or the empty card for an empty stack |
| `Board.FreshFieldTop` | src/Gamestate.py:39 | on a fresh board the visible entry of cell (i, j) is its filler (i, j) |
| `Board.MirrorCoords` | src/Gamestate.py:82-89 | for i, j in 0..4 the mirrored pair is again in 0..4 |
| `Board.MirrorInvolution` | src/Gamestate.py:83-89 | mirroring a mirrored pair gives back the original pair |
| `Board.MirrorGrid` | src/Gamestate.py:96-98 | the mirrored view is 5x5 and its entry [j][i] is the grid's entry [4-j][4-i] |
| `Board.MirrorGridInvolution` | src/Gamestate.py:98 | mirroring the mirrored view gives back the grid |
| `Board.ReversedTopCardField` | src/Gamestate.py:91-99 | the reversed view is 5x5 and its entry [j][i] is the top of the stack at row 4-j, column 4-i |
| `Board.MirroredRowClash` | src/Gamestate.py:60-67 | a clash at (i, j) of the second player's view is exactly a clash at (4-i, 4-j) of the unmirrored board |
| `Board.FreshFieldNotFaultless` | src/Gamestate.py:53 | on a fresh board neither player's view meets the move generator's requirement, because the entries are fillers |
| `Engine.Gamestate.constructor` | src/Gamestate.py:23-33 | two players with full shuffled decks of sides 0 and 1, active player 1, turn 0, drawn and played flags set, no card, the fresh board |
| `Engine.Gamestate.GetAcPlayer` | src/Gamestate.py:107-111 | the data of the player at index `active_player`, whose deck is part of that player's full deck |
| `Engine.Gamestate.CardsLeft` | src/Gamestate.py:173-177 | the size of the active player's deck, at most 25 |
| `Engine.Gamestate.DrawnCard` | src/Gamestate.py:167-171 | the card of this turn, when there is one, is a deck card |
| `Engine.Gamestate.GetField` | src/Gamestate.py:152-165 | the top-card view for player 0; for player 1 the view whose [j][i] is the top card at [4-j][4-i], and whose mirror is the unmirrored view |
| `Engine.Gamestate.DrawCard` | src/Gamestate.py:130-136 | requires no card drawn yet; sets the drawn flag; pops the active deck's last card into `card`; an empty deck is an error that leaves decks and card unchanged; the other deck and all other fields unchanged |
| `Engine.Gamestate.NewTurn` | src/Gamestate.py:113-128 | requires both flags set; turn number +1; active player flipped; then the draw; on success the played flag is cleared, the card is the last of the new active deck, that player keeps its strategy handle and the rest of its deck, and cards left is that deck's old size minus one; an empty deck is an error |
| `Engine.Gamestate.PossibleMoves` | src/Gamestate.py:42-80 | a move is in the result iff its start holds an active card with an unequal row partner sharing character or number and its end is (i, j+1); every start card has the active side |
| `Engine.ScanRow` | src/Gamestate.py:50-57 | the row loop adds exactly the clash moves that start in row j |
| `Engine.ScanCell` | src/Gamestate.py:59-78 | the two inner loops add (i, j) -> (i, j+1) iff the card clashes within its row; the column loop adds nothing |
| `Engine.FirstTurn` | src/Gamestate.py:28 | after construction and one new turn, player 0 is active, has 24 cards left and holds one of its own deck cards |

The accessors carry contracts that rest on the object invariant. The predicates `Valid`, `IsDeckCard`,
`IsPartOfDeck`, `Faultless`, `Clashes`, `RowClashAt` and `IsClashMove` are the definitions those
contracts are stated in.

## Left out

- `set_card` is a `pass` stub (src/Gamestate.py:149-150), and the `__main__` demo block is script code. Neither is modelled.
- The randomness of `random.shuffle`: the shuffle takes the random draws as the parameter `rand`, and only the fact that the result is a permutation is used.
- The strategy handles in `PlayerData.ai` are opaque identifiers. The engine never calls them.
- src/interface.py (terminal rendering and blocking input) is not part of this model. Neither are src/tools/factory.py (reflection-based strategy lookup), src/Ai/__init__.py (dynamic module loading) and src/main.py (the endless driver loop).
- Python's assertion failures are not modelled as outcomes: the asserts of `_new_turn`, `_draw_card`, `_mirror_coords` and `get_field` are preconditions or parts of `Valid`.
- Engine.Gamestate.NewTurn: a call without `card_drawn` or `card_payed` set is excluded by the precondition. In the source such a call first changes the turn counter and the active player (and, without `card_payed`, draws a card) before its assertion fails.
- Engine.Gamestate.PossibleMoves: a visible filler or an invalid side is excluded by the precondition. The model does not say which Python exception the source raises then.
- The empty deck raises an IndexError in the source. The model returns `EmptyDeckError` with the state as the source leaves it: drawn flag set, deck and card unchanged.
