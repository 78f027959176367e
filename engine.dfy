/** The Gamestate class: the players' decks, the turn state machine, the board
    and the move generator (src/Gamestate.py:17-177). */
module Engine {
  import opened Records
  import opened Deck
  import opened Board

  class Gamestate {
    var players: seq<PlayerData>
    var activePlayer: int
    var turnNumber: nat
    /** Was a card drawn this turn? */
    var cardDrawn: bool
    /** The card that has to be played this turn. */
    var card: Option<Card>
    /** Did the player already play the card? (`card_payed` in the source.) */
    var cardPayed: bool
    var field: Field

    /** The object invariant: two players, each holding part of its own full
        deck; the active player is 0 or 1; the card in hand is a deck card;
        the board is 5x5. */
    ghost predicate Valid()
      reads this
    {
      && |players| == 2
      && (activePlayer == 0 || activePlayer == 1)
      && IsPartOfDeck(players[0].deck, 0)
      && IsPartOfDeck(players[1].deck, 1)
      && (card.Some? ==> IsDeckCard(card.value, 0) || IsDeckCard(card.value, 1))
      && IsBoard(field)
    }

    /** __init__(ai1, ai2); `rand1` and `rand2` are the random draws of the two shuffles. */
    constructor (ai1: Strategy, ai2: Strategy, rand1: seq<nat>, rand2: seq<nat>)
      requires |rand1| == 25 && |rand2| == 25
      ensures Valid()
      ensures |players| == 2 && players[0].ai == ai1 && players[1].ai == ai2
      ensures |players[0].deck| == 25 && |players[1].deck| == 25
      ensures multiset(players[0].deck) == multiset(OrderedDeck(0))
      ensures multiset(players[1].deck) == multiset(OrderedDeck(1))
      ensures activePlayer == 1 && turnNumber == 0
      ensures cardDrawn && cardPayed && card == None
      ensures field == EmptyField()
    {
      var deck1 := CreateNewDeck(0, rand1);
      var deck2 := CreateNewDeck(1, rand2);
      players := [PlayerData(ai1, deck1), PlayerData(ai2, deck2)];
      activePlayer := 1;
      turnNumber := 0;
      cardDrawn := true;
      card := None;
      cardPayed := true;
      field := EmptyField();
    }

    /** _get_ac_player: the active player's data, whose deck is part of that
        player's full deck. */
    function GetAcPlayer(): (p: PlayerData)
      reads this
      requires Valid()
      ensures p == players[activePlayer]
      ensures IsPartOfDeck(p.deck, activePlayer)
    {
      players[activePlayer]
    }

    /** cards_left: the size of the active player's deck, never more than 25. */
    function CardsLeft(): (n: nat)
      reads this
      requires Valid()
      ensures n == |GetAcPlayer().deck|
      ensures n <= 25
    {
      PartOfDeckSize(players[activePlayer].deck, activePlayer);
      |players[activePlayer].deck|
    }

    /** drawn_card: the card drawn this turn, if any, is a card of a deck. */
    function DrawnCard(): (c: Option<Card>)
      reads this
      requires Valid()
      ensures c.Some? ==> IsDeckCard(c.value, 0) || IsDeckCard(c.value, 1)
      ensures c == card
    {
      card
    }

    /** get_field: the visible board of the active player; the first player
        sees the board as it is, the second through the mirror. */
    function GetField(): (r: Grid)
      reads this
      requires Valid()
      ensures IsGrid(r)
      ensures activePlayer == 0 ==> r == TopCardField(field)
      ensures activePlayer == 1 ==>
                forall j, i :: 0 <= j < 5 && 0 <= i < 5 ==> r[j][i] == TopCardField(field)[4 - j][4 - i]
      ensures activePlayer == 1 ==> MirrorGrid(r) == TopCardField(field)
    {
      if activePlayer == 0 then TopCardField(field)
      else
        MirrorGridInvolution(TopCardField(field));
        ReversedTopCardField(field)
    }

    /** _draw_card: marks the card as drawn, then pops the last card of the
        active player's deck into `card`; popping an empty deck fails. */
    method DrawCard() returns (status: Status)
      requires Valid()
      requires !cardDrawn
      modifies this
      ensures Valid()
      ensures cardDrawn
      ensures activePlayer == old(activePlayer) && turnNumber == old(turnNumber)
      ensures cardPayed == old(cardPayed) && field == old(field)
      ensures |players| == 2 && players[1 - activePlayer] == old(players[1 - activePlayer])
      ensures status == EmptyDeckError <==> old(players[activePlayer].deck) == []
      ensures status == EmptyDeckError ==> players == old(players) && card == old(card)
      ensures status == Ok ==>
                var d := old(players[activePlayer].deck);
                && card == Some(d[|d| - 1])
                && players[activePlayer] == PlayerData(old(players[activePlayer].ai), d[..|d| - 1])
    {
      cardDrawn := true;
      var p := players[activePlayer];
      if p.deck == [] {
        return EmptyDeckError;
      }
      var n := |p.deck|;
      PopKeepsPartOfDeck(p.deck, activePlayer);
      card := Some(p.deck[n - 1]);
      if activePlayer == 0 {
        players := [PlayerData(p.ai, p.deck[..n - 1]), players[1]];
      } else {
        players := [players[0], PlayerData(p.ai, p.deck[..n - 1])];
      }
      status := Ok;
    }

    /** _new_turn: counts the turn, hands the turn to the other player and
        draws that player's card; the card is then still to be played. */
    method NewTurn() returns (status: Status)
      requires Valid()
      requires cardDrawn && cardPayed
      modifies this
      ensures Valid()
      ensures turnNumber == old(turnNumber) + 1
      ensures activePlayer == 1 - old(activePlayer)
      ensures cardDrawn && field == old(field)
      ensures |players| == 2 && players[1 - activePlayer] == old(players[activePlayer])
      ensures status == EmptyDeckError <==> old(players[1 - activePlayer].deck) == []
      ensures status == EmptyDeckError ==> players == old(players) && card == old(card) && cardPayed
      ensures status == Ok ==>
                var d := old(players[1 - activePlayer].deck);
                && !cardPayed
                && card == Some(d[|d| - 1])
                && players[activePlayer] == PlayerData(old(players[1 - activePlayer].ai), d[..|d| - 1])
                && CardsLeft() == |d| - 1
    {
      turnNumber := turnNumber + 1;
      activePlayer := if activePlayer == 0 then 1 else 0;
      cardDrawn := false;
      status := DrawCard();
      if status == EmptyDeckError {
        return;
      }
      cardPayed := false;
    }

    /** _possible_moves: scans the active player's visible board, row by row. */
    method PossibleMoves() returns (moves: set<Move>)
      requires Valid()
      requires Faultless(GetField())
      ensures forall m :: m in moves <==> IsClashMove(GetField(), activePlayer, m)
      ensures forall m :: m in moves ==>
                && 0 <= m.start.0 < 5 && 0 <= m.start.1 < 5
                && GetField()[m.start.1][m.start.0].card.side == Some(activePlayer)
                && m.end == (m.start.0, m.start.1 + 1)
    {
      var view := GetField();
      var list: seq<Move> := [];
      for j := 0 to |view|
        invariant forall m :: m in list <==> IsClashMove(view, activePlayer, m) && m.start.1 < j
      {
        list := ScanRow(view, activePlayer, j, list);
      }
      moves := set m | m in list;
    }
  }

  /** The body of the row loop of _possible_moves: every card of row j that
      belongs to `active` is checked for clashes. */
  method ScanRow(view: Grid, active: int, j: int, list: seq<Move>) returns (list': seq<Move>)
    requires IsGrid(view) && Faultless(view) && 0 <= j < 5
    ensures forall m :: m in list' <==> m in list || (IsClashMove(view, active, m) && m.start.1 == j)
  {
    list' := list;
    var row := view[j];
    for i := 0 to |row|
      invariant forall m :: m in list' <==>
                  m in list || (IsClashMove(view, active, m) && m.start.1 == j && m.start.0 < i)
    {
      var card := row[i].card;
      // empty cells or the opponent's cards
      if card.side != Some(active) {
        continue;
      }
      list' := ScanCell(view, active, i, j, list');
    }
  }

  /** The two inner loops of _possible_moves for the card at column i, row j.
      A row clash emits (i, j) -> (i, j + 1). The column loop compares the card
      with row[i], the card itself, so it never emits (i, j) -> (i + 1, j). */
  method ScanCell(view: Grid, active: int, i: int, j: int, list: seq<Move>) returns (list': seq<Move>)
    requires IsGrid(view) && Faultless(view) && 0 <= i < 5 && 0 <= j < 5
    requires view[j][i].card.side == Some(active)
    ensures forall m :: m in list' <==>
              m in list || (m == Move((i, j), (i, j + 1)) && RowClashAt(view, active, i, j))
  {
    list' := list;
    var row := view[j];
    var card := row[i].card;
    // clashes in the same row
    for i2 := 0 to |row|
      invariant forall m :: m in list' <==>
                  m in list || (m == Move((i, j), (i, j + 1)) &&
                                exists k :: 0 <= k < i2 && Clashes(card, row[k].card))
    {
      var card2 := row[i2].card;
      if card == card2 {
        continue;
      }
      if card.character == card2.character || card.number == card2.number {
        list' := list' + [Move((i, j), (i, j + 1))];
      }
    }
    // clashes in the same column
    for j2 := 0 to |view|
      invariant forall m :: m in list' <==>
                  m in list || (m == Move((i, j), (i, j + 1)) && RowClashAt(view, active, i, j))
    {
      var card2 := row[i].card;
      if card == card2 {
        continue;
      }
      if card.character == card2.character || card.number == card2.number {
        list' := list' + [Move((i, j), (i + 1, j))];
      }
    }
  }

  /** A new game followed by one turn: the first player (index 0) is active,
      holds 24 cards and has drawn one of its own cards. */
  method FirstTurn(ai1: Strategy, ai2: Strategy, rand1: seq<nat>, rand2: seq<nat>)
    returns (status: Status, active: int, left: nat, drawn: Option<Card>)
    requires |rand1| == 25 && |rand2| == 25
    ensures status == Ok && active == 0 && left == 24
    ensures drawn.Some? && IsDeckCard(drawn.value, 0)
  {
    var g := new Gamestate(ai1, ai2, rand1, rand2);
    status := g.NewTurn();
    active := g.activePlayer;
    left := g.CardsLeft();
    drawn := g.DrawnCard();
  }
}
