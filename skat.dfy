/**
 * Vocabulary shared by the skat rules: the three table seats, the 32 cards
 * and the game types.
 */
module Skat {

  /** A table seat, by its ordinal: 0 forehand, 1 middlehand, 2 rearhand. */
  type Seat = s: int | 0 <= s < 3

  const Forehand: Seat := 0
  const Middlehand: Seat := 1
  const Rearhand: Seat := 2

  /** The first opponent of a declarer sitting at `s`: the next seat in playing order. */
  function LeftNeighbor(s: Seat): (n: Seat)
    ensures n != s
  {
    (s + 1) % 3
  }

  /** The second opponent of a declarer sitting at `s`. */
  function RightNeighbor(s: Seat): (n: Seat)
    ensures n != s && n != LeftNeighbor(s)
  {
    (s + 2) % 3
  }

  /** The declarer and its two neighbours are the whole table. */
  lemma SeatsAroundDeclarer(d: Seat, s: Seat)
    ensures s == d || s == LeftNeighbor(d) || s == RightNeighbor(d)
  {
  }

  datatype Suit = Clubs | Spades | Hearts | Diamonds

  datatype Rank = Seven | Eight | Nine | Ten | Jack | Queen | King | Ace

  datatype Card = Card(suit: Suit, rank: Rank)

  /** The highest trump of suit and grand games. */
  const ClubJack := Card(Clubs, Jack)

  datatype GameType = SuitGame(trump: Suit) | Grand | Null | Ramsch | PassedIn
}
