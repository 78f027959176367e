/** Deck construction: the 25 cards A1 .. E5 of one side, shuffled
    (src/Gamestate.py:139-146). */
module Deck {
  import opened Records

  /** The characters of the deck, in the order the deck is built. */
  const Characters: seq<char> := ['A', 'B', 'C', 'D', 'E']

  /** A card of `player`'s deck: a character A..E, a number 1..5 and that side. */
  predicate IsDeckCard(x: Card, player: int)
  {
    && x.character.Some? && x.character.value in Characters
    && x.number.Some? && 1 <= x.number.value <= 5
    && x.side == Some(player)
  }

  /** The deck before shuffling: for each character in order, the numbers 1 to 5. */
  function OrderedDeck(player: int): (d: seq<Card>)
    ensures |d| == 25
    ensures forall k :: 0 <= k < |d| ==> IsDeckCard(d[k], player)
  {
    seq(25, k requires 0 <= k < 25 => Card(Some(Characters[k / 5]), Some(k % 5 + 1), Some(player)))
  }

  predicate Distinct<T(==)>(s: seq<T>)
  {
    forall a, b :: 0 <= a < b < |s| ==> s[a] != s[b]
  }

  /** In a sequence without duplicates every element occurs exactly once. */
  lemma {:induction false} DistinctCount<T>(s: seq<T>, x: T)
    requires Distinct(s)
    ensures multiset(s)[x] == if x in s then 1 else 0
  {
    if s != [] {
      assert s == [s[0]] + s[1..];
      assert Distinct(s[1..]) by {
        forall a, b | 0 <= a < b < |s[1..]| ensures s[1..][a] != s[1..][b] {
          assert s[1..][a] == s[a + 1] && s[1..][b] == s[b + 1];
        }
      }
      DistinctCount(s[1..], x);
      assert s[0] !in s[1..] by {
        forall k | 0 <= k < |s[1..]| ensures s[1..][k] != s[0] {
          assert s[1..][k] == s[k + 1];
        }
      }
    }
  }

  /** No card of the ordered deck occurs twice. */
  lemma OrderedDeckDistinct(player: int)
    ensures Distinct(OrderedDeck(player))
  {
  }

  /** The ordered deck is exactly the cross product {A..E} x {1..5} tagged with
      `player`: every pair occurs once and nothing else occurs. */
  lemma OrderedDeckIsCrossProduct(player: int)
    ensures forall x :: x in multiset(OrderedDeck(player)) ==> IsDeckCard(x, player)
    ensures forall c, n :: c in Characters && 1 <= n <= 5 ==>
              multiset(OrderedDeck(player))[Card(Some(c), Some(n), Some(player))] == 1
  {
    var d := OrderedDeck(player);
    OrderedDeckDistinct(player);
    forall c, n | c in Characters && 1 <= n <= 5
      ensures multiset(d)[Card(Some(c), Some(n), Some(player))] == 1
    {
      var idx :| 0 <= idx < 5 && Characters[idx] == c;
      var k := idx * 5 + n - 1;
      assert k / 5 == idx && k % 5 == n - 1;
      assert d[k] == Card(Some(c), Some(n), Some(player));
      DistinctCount(d, d[k]);
    }
  }

  /** A part of `player`'s deck: distinct cards, each a deck card of that side. */
  predicate IsPartOfDeck(d: seq<Card>, player: int)
  {
    Distinct(d) && forall k :: 0 <= k < |d| ==> IsDeckCard(d[k], player)
  }

  /** An element at two positions occurs at least twice. */
  lemma RepeatCount<T>(s: seq<T>, a: int, b: int)
    requires 0 <= a < b < |s| && s[a] == s[b]
    ensures multiset(s)[s[a]] >= 2
  {
    assert s == s[..b] + s[b..];
    assert s[a] == s[..b][a];
    assert s[b] == s[b..][0];
  }

  /** A permutation of the full deck is a part of the deck. */
  lemma PermutationIsPartOfDeck(d: seq<Card>, player: int)
    requires multiset(d) == multiset(OrderedDeck(player))
    ensures IsPartOfDeck(d, player)
  {
    OrderedDeckIsCrossProduct(player);
    OrderedDeckDistinct(player);
    forall a, b | 0 <= a < b < |d| ensures d[a] != d[b] {
      if d[a] == d[b] {
        RepeatCount(d, a, b);
      }
    }
    forall k | 0 <= k < |d| ensures IsDeckCard(d[k], player) {
      assert d[k] in multiset(OrderedDeck(player));
    }
  }

  /** A part of the deck holds at most the 25 cards of the full deck. */
  lemma PartOfDeckSize(d: seq<Card>, player: int)
    requires IsPartOfDeck(d, player)
    ensures |d| <= 25
  {
    var whole := OrderedDeck(player);
    OrderedDeckIsCrossProduct(player);
    forall x ensures multiset(d)[x] <= multiset(whole)[x] {
      DistinctCount(d, x);
      if x in d {
        var k :| 0 <= k < |d| && d[k] == x;
        assert IsDeckCard(x, player);
      }
    }
    assert multiset(d) <= multiset(whole);
    assert multiset(whole) == multiset(d) + (multiset(whole) - multiset(d));
  }

  /** Popping the last card of a part of the deck leaves a part of the deck,
      and the popped card is a deck card of that side. */
  lemma PopKeepsPartOfDeck(d: seq<Card>, player: int)
    requires d != [] && IsPartOfDeck(d, player)
    ensures IsPartOfDeck(d[..|d| - 1], player)
    ensures IsDeckCard(d[|d| - 1], player)
  {
  }

  /** random.shuffle, the Fisher-Yates shuffle: `rand[i]` is the random draw
      made at position i, reduced below i + 1. */
  method Shuffle(a: array<Card>, rand: seq<nat>)
    requires |rand| == a.Length
    modifies a
    ensures multiset(a[..]) == multiset(old(a[..]))
  {
    var i := a.Length - 1;
    while i >= 1
      invariant -1 <= i < a.Length
      invariant multiset(a[..]) == multiset(old(a[..]))
    {
      var j := rand[i] % (i + 1);
      a[i], a[j] := a[j], a[i];
      i := i - 1;
    }
  }

  /** _create_new_deck(player): the 25 cards of `player`, in the order the
      shuffle's random draws `rand` give. */
  method CreateNewDeck(player: int, rand: seq<nat>) returns (deck: seq<Card>)
    requires |rand| == 25
    ensures |deck| == 25
    ensures multiset(deck) == multiset(OrderedDeck(player))
    ensures IsPartOfDeck(deck, player)
    ensures forall c, n :: c in Characters && 1 <= n <= 5 ==>
              multiset(deck)[Card(Some(c), Some(n), Some(player))] == 1
  {
    var ordered := OrderedDeck(player);
    var a := new Card[25](k requires 0 <= k < 25 => ordered[k]);
    assert a[..] == ordered;
    Shuffle(a, rand);
    deck := a[..];
    OrderedDeckIsCrossProduct(player);
    PermutationIsPartOfDeck(deck, player);
  }
}
