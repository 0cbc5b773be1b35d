/**
 * Scoring rules shared by suit and grand games: the win test, schneider and
 * schwarz, the final multiplier and the game value, and the reading of the
 * declarer's cards for the "with/without jacks" term.
 *
 * The rules read a game record. Per-seat card points, the trick winners and
 * the announcement flags are passed as values; the dealt cards live in a
 * `SkatGameData` object because reading the declarer's cards appends the
 * skat to the declarer's dealt card list in place.
 */
module SuitGrandRules {
  import opened Skat

  // ---------------------------------------------------------------------
  // Card points per seat

  /** Sum of the three per-seat scores. */
  function Total(scores: seq<int>): int
    requires |scores| == 3
  {
    scores[0] + scores[1] + scores[2]
  }

  // ---------------------------------------------------------------------
  // Win test

  /**
   * A suit or grand game is won when the declarer made more than 60 card
   * points. When all 120 card points are spread over the seats, that is
   * exactly when the declarer made more points than both opponents together
   * (a 60:60 split is a loss).
   */
  function CalcGameWon(scores: seq<int>, declarer: Seat): (won: bool)
    requires |scores| == 3
    ensures Total(scores) == 120 ==>
              (won <==> scores[declarer] > scores[LeftNeighbor(declarer)] + scores[RightNeighbor(declarer)])
  {
    scores[declarer] > 60
  }

  /** 60 card points are not enough, 61 are. */
  lemma WinThreshold(scores: seq<int>, declarer: Seat)
    requires |scores| == 3
    ensures scores[declarer] == 60 ==> !CalcGameWon(scores, declarer)
    ensures scores[declarer] == 61 ==> CalcGameWon(scores, declarer)
  {
  }

  // ---------------------------------------------------------------------
  // Schneider

  /**
   * Schneider as the rules compute it: in a lost game the declarer made at
   * most 30 points; in a won game at least one of the two opponents, on
   * its own, made at most 30 points.
   */
  function IsSchneider(scores: seq<int>, declarer: Seat, lost: bool): (r: bool)
    requires |scores| == 3
    ensures r <==> exists s: Seat :: (s == declarer <==> lost) && scores[s] < 31
  {
    if lost then
      scores[declarer] < 31
    else
      scores[LeftNeighbor(declarer)] < 31 || scores[RightNeighbor(declarer)] < 31
  }

  /**
   * Because the opponents are checked one by one, every won game in which
   * at most 120 card points were counted is schneider: the two opponents
   * share fewer than 60 points, so one of them has fewer than 30.
   */
  lemma EveryWonGameIsSchneider(scores: seq<int>, declarer: Seat)
    requires |scores| == 3 && Total(scores) <= 120
    requires CalcGameWon(scores, declarer)
    ensures IsSchneider(scores, declarer, false)
  {
  }

  /**
   * Schneider of a party: the losing party made at most 30 card points,
   * where the opponents' party is scored by the sum of both opponents.
   */
  function PartySchneider(scores: seq<int>, declarer: Seat, lost: bool): bool
    requires |scores| == 3
  {
    if lost then scores[declarer] <= 30
    else scores[LeftNeighbor(declarer)] + scores[RightNeighbor(declarer)] <= 30
  }

  /**
   * With all 120 card points spread over the seats and the game lost
   * exactly when it is not won, a game is schneider exactly when the
   * declarer made at most 30 or at least 90 points.
   */
  lemma PartySchneiderByDeclarerScore(scores: seq<int>, declarer: Seat)
    requires |scores| == 3 && Total(scores) == 120
    ensures PartySchneider(scores, declarer, !CalcGameWon(scores, declarer)) <==>
              scores[declarer] <= 30 || scores[declarer] >= 90
  {
  }

  // ---------------------------------------------------------------------
  // Schwarz

  /** Number of tricks won by seat `s`. */
  function TricksWonBy(winners: seq<Seat>, s: Seat): (n: nat)
    ensures n <= |winners|
  {
    if winners == [] then 0
    else TricksWonBy(winners[..|winners| - 1], s) + (if winners[|winners| - 1] == s then 1 else 0)
  }

  /** Every trick has exactly one winner, so the per-seat counts add up to the number of tricks. */
  lemma {:induction false} TrickCountsSum(winners: seq<Seat>)
    ensures TricksWonBy(winners, 0) + TricksWonBy(winners, 1) + TricksWonBy(winners, 2) == |winners|
  {
    if winners != [] {
      TrickCountsSum(winners[..|winners| - 1]);
    }
  }

  /** A seat has no trick exactly when it won none of the tricks. */
  lemma {:induction false} NoTrickIff(winners: seq<Seat>, s: Seat)
    ensures TricksWonBy(winners, s) == 0 <==> forall k :: 0 <= k < |winners| ==> winners[k] != s
  {
    if winners != [] {
      var init := winners[..|winners| - 1];
      NoTrickIff(init, s);
      assert forall k :: 0 <= k < |init| ==> init[k] == winners[k];
    }
  }

  /** The schwarz test as the rules state it: a lost game in which some seat won no trick. */
  ghost predicate SchwarzAsWritten(winners: seq<Seat>, lost: bool)
  {
    lost && exists s: Seat :: TricksWonBy(winners, s) == 0
  }

  /**
   * Schwarz as the rules compute it: the winners of all tricks are counted
   * per seat, and the game is schwarz when it is lost and the declarer, or
   * one of the two opponents on its own, won no trick. Since the declarer
   * and its neighbours are the whole table, that is "some seat won no trick".
   */
  method IsSchwarz(winners: seq<Seat>, declarer: Seat, lost: bool) returns (schwarz: bool)
    ensures schwarz == SchwarzAsWritten(winners, lost)
  {
    schwarz := false;
    var trickWinnerCount := new int[3];
    trickWinnerCount[0], trickWinnerCount[1], trickWinnerCount[2] := 0, 0, 0;
    for i := 0 to |winners|
      invariant forall s: Seat :: trickWinnerCount[s] == TricksWonBy(winners[..i], s)
    {
      assert winners[..i + 1][..i] == winners[..i];
      trickWinnerCount[winners[i]] := trickWinnerCount[winners[i]] + 1;
    }
    assert winners[..|winners|] == winners;
    if lost {
      if trickWinnerCount[declarer] == 0 {
        schwarz := true;
      } else if trickWinnerCount[(declarer + 1) % 3] == 0 || trickWinnerCount[(declarer + 2) % 3] == 0 {
        schwarz := true;
      }
    }
  }

  /**
   * Schwarz of a party: the losing party won no trick, where the
   * opponents' party owns the tricks of both opponents.
   */
  function PartySchwarz(winners: seq<Seat>, declarer: Seat, lost: bool): bool
  {
    if lost then TricksWonBy(winners, declarer) == 0
    else TricksWonBy(winners, LeftNeighbor(declarer)) + TricksWonBy(winners, RightNeighbor(declarer)) == 0
  }

  /**
   * A party is schwarz exactly when every trick went to the other party:
   * in a lost game the declarer won no trick, in a won game the declarer
   * won every trick.
   */
  lemma {:induction false} PartySchwarzIff(winners: seq<Seat>, declarer: Seat, lost: bool)
    ensures PartySchwarz(winners, declarer, lost) <==>
              forall k :: 0 <= k < |winners| ==> (winners[k] == declarer <==> !lost)
  {
    NoTrickIff(winners, declarer);
    NoTrickIff(winners, LeftNeighbor(declarer));
    NoTrickIff(winners, RightNeighbor(declarer));
  }

  /**
   * Two games on which the rules' schwarz test and the party reading
   * disagree: the declarer wins all ten tricks (not schwarz as written,
   * since the game is won), and a lost game where one opponent alone won
   * no trick (schwarz as written, though the opponents' party won seven).
   */
  lemma SchwarzAsWrittenDisagrees(declarer: Seat)
    ensures var sweep := seq(10, _ => declarer);
            !SchwarzAsWritten(sweep, false) && PartySchwarz(sweep, declarer, false)
    ensures var split := seq(3, _ => declarer) + seq(7, _ => LeftNeighbor(declarer));
            SchwarzAsWritten(split, true) && !PartySchwarz(split, declarer, true)
  {
    var sweep := seq(10, _ => declarer);
    PartySchwarzIff(sweep, declarer, false);
    var split := seq(3, _ => declarer) + seq(7, _ => LeftNeighbor(declarer));
    NoTrickIff(split, RightNeighbor(declarer));
    NoTrickIff(split, declarer);
    assert split[0] == declarer;
  }

  // ---------------------------------------------------------------------
  // Multiplier and game value

  /** The facts of a finished game that the multiplier and the game value depend on. */
  datatype ScoringFlags = ScoringFlags(
    hand: bool,
    ouvert: bool,
    schneider: bool,
    schneiderAnnounced: bool,
    schwarz: bool,
    schwarzAnnounced: bool,
    lost: bool)

  function Bonus(b: bool): nat
  {
    if b then 1 else 0
  }

  /**
   * The final multiplier, stated as a sum: the jacks term, one each for
   * hand, ouvert, schneider and schwarz, and one more each for schneider
   * and schwarz achieved after being announced in a hand game.
   */
  function FinalMultiplier(jacks: int, f: ScoringFlags): int
  {
    jacks + Bonus(f.hand) + Bonus(f.ouvert)
      + Bonus(f.schneider) + Bonus(f.schneider && f.hand && f.schneiderAnnounced)
      + Bonus(f.schwarz) + Bonus(f.schwarz && f.hand && f.schwarzAnnounced)
  }

  /** Base value times multiplier, and minus twice that when the game is lost. */
  function GameValue(jacks: int, baseValue: int, f: ScoringFlags): int
  {
    var value := baseValue * FinalMultiplier(jacks, f);
    if f.lost then -2 * value else value
  }

  /** The multiplier lies between the jacks term and the jacks term plus six. */
  lemma MultiplierBounds(jacks: int, f: ScoringFlags)
    ensures jacks <= FinalMultiplier(jacks, f) <= jacks + 6
    ensures FinalMultiplier(jacks, f) == jacks + 6 <==>
              f.hand && f.ouvert && f.schneider && f.schneiderAnnounced && f.schwarz && f.schwarzAnnounced
  {
  }

  /**
   * Each of ouvert, schneider and schwarz raises the multiplier; an
   * announcement adds one more only when it was achieved in a hand game,
   * and adds nothing otherwise.
   */
  lemma MultiplierSteps(jacks: int, f: ScoringFlags)
    ensures FinalMultiplier(jacks, f.(ouvert := true)) == FinalMultiplier(jacks, f.(ouvert := false)) + 1
    ensures FinalMultiplier(jacks, f.(schneider := true)) ==
              FinalMultiplier(jacks, f.(schneider := false)) + 1 + Bonus(f.hand && f.schneiderAnnounced)
    ensures FinalMultiplier(jacks, f.(schwarz := true)) ==
              FinalMultiplier(jacks, f.(schwarz := false)) + 1 + Bonus(f.hand && f.schwarzAnnounced)
    ensures FinalMultiplier(jacks, f.(schneiderAnnounced := true)) ==
              FinalMultiplier(jacks, f.(schneiderAnnounced := false)) + Bonus(f.schneider && f.hand)
    ensures FinalMultiplier(jacks, f.(schwarzAnnounced := true)) ==
              FinalMultiplier(jacks, f.(schwarzAnnounced := false)) + Bonus(f.schwarz && f.hand)
  {
  }

  /**
   * The hand bonus is counted whether the game is won or lost: the
   * multiplier does not depend on the outcome, and a hand game raises it by
   * one plus the announcement bonuses that the hand game unlocks.
   */
  lemma HandBonusIgnoresOutcome(jacks: int, f: ScoringFlags)
    ensures FinalMultiplier(jacks, f.(lost := true)) == FinalMultiplier(jacks, f.(lost := false))
    ensures FinalMultiplier(jacks, f.(hand := true)) ==
              FinalMultiplier(jacks, f.(hand := false)) + 1
              + Bonus(f.schneider && f.schneiderAnnounced) + Bonus(f.schwarz && f.schwarzAnnounced)
  {
  }

  /** The same game lost is worth minus twice what it is worth won. */
  lemma LostValueIsMinusTwiceWonValue(jacks: int, baseValue: int, f: ScoringFlags)
    ensures GameValue(jacks, baseValue, f.(lost := true)) == -2 * GameValue(jacks, baseValue, f.(lost := false))
    ensures GameValue(jacks, baseValue, f.(lost := false)) == baseValue * FinalMultiplier(jacks, f)
  {
  }

  // ---------------------------------------------------------------------
  // Worked games

  /** No hand, no ouvert, no schneider, no schwarz. */
  function PlainGame(lost: bool): ScoringFlags
  {
    ScoringFlags(false, false, false, false, false, false, lost)
  }

  /**
   * A diamonds game (base value 9, "without two, play three") where the
   * declarer at rearhand made 59 points and the opponents 61: lost, not
   * schneider, worth -54.
   */
  lemma DiamondsGameWith59IsLost(opponent0: int, opponent1: int)
    requires opponent0 + opponent1 == 61
    ensures var scores := [opponent0, opponent1, 59];
            var lost := !CalcGameWon(scores, Rearhand);
            lost
            && !IsSchneider(scores, Rearhand, lost)
            && !PartySchneider(scores, Rearhand, lost)
            && GameValue(3, 9, PlainGame(lost)) == -54
  {
  }

  /**
   * A grand game (base value 24, "with three, play four") where the
   * declarer at rearhand made 85 points and the opponents 35: won, not
   * schneider for the party, worth 96. The rules' per-seat schneider test
   * reports schneider here whatever the split of the 35 points.
   */
  lemma GrandGameWith85IsWon(opponent0: int, opponent1: int)
    requires opponent0 + opponent1 == 35
    ensures var scores := [opponent0, opponent1, 85];
            var lost := !CalcGameWon(scores, Rearhand);
            !lost
            && !PartySchneider(scores, Rearhand, lost)
            && IsSchneider(scores, Rearhand, lost)
            && GameValue(4, 24, PlainGame(lost)) == 96
  {
  }

  // ---------------------------------------------------------------------
  // Declarer's cards

  /** The part of a game record that the jacks term is read from. */
  class SkatGameData {
    var declarer: Seat
    var gameType: GameType
    /** The cards dealt to each seat, by seat ordinal. */
    var dealtCards: seq<seq<Card>>
    var dealtSkat: seq<Card>

    ghost predicate Valid()
      reads this
    {
      |dealtCards| == 3
    }

    constructor (declarer: Seat, gameType: GameType, dealtCards: seq<seq<Card>>, dealtSkat: seq<Card>)
      requires |dealtCards| == 3
      ensures Valid()
      ensures this.declarer == declarer && this.gameType == gameType
      ensures this.dealtCards == dealtCards && this.dealtSkat == dealtSkat
    {
      this.declarer := declarer;
      this.gameType := gameType;
      this.dealtCards := dealtCards;
      this.dealtSkat := dealtSkat;
    }
  }

  /**
   * The declarer's cards: the skat is appended to the declarer's dealt
   * cards in place, and the extended list is returned.
   */
  method GetDeclarerCards(g: SkatGameData) returns (cards: seq<Card>)
    requires g.Valid()
    modifies g`dealtCards
    ensures g.Valid()
    ensures g.dealtCards == old(g.dealtCards)[g.declarer := old(g.dealtCards[g.declarer]) + g.dealtSkat]
    ensures cards == g.dealtCards[g.declarer]
  {
    g.dealtCards := g.dealtCards[g.declarer := g.dealtCards[g.declarer] + g.dealtSkat];
    cards := g.dealtCards[g.declarer];
  }

  /** A game is played "with jacks" when the declarer's cards and the skat hold the club jack. */
  method IsPlayWithJacks(g: SkatGameData) returns (withJacks: bool)
    requires g.Valid()
    modifies g`dealtCards
    ensures g.Valid()
    ensures g.dealtCards == old(g.dealtCards)[g.declarer := old(g.dealtCards[g.declarer]) + g.dealtSkat]
    ensures withJacks <==> ClubJack in old(g.dealtCards[g.declarer]) || ClubJack in g.dealtSkat
  {
    var declarerCards := GetDeclarerCards(g);
    withJacks := ClubJack in declarerCards;
  }

  /**
   * The jacks term of the multiplier, computed by `jacksMultiplier` from the
   * declarer's cards including the skat and the game type.
   */
  method GetMultiplier(g: SkatGameData, jacksMultiplier: (seq<Card>, GameType) -> int) returns (multiplier: int)
    requires g.Valid()
    modifies g`dealtCards
    ensures g.Valid()
    ensures g.dealtCards == old(g.dealtCards)[g.declarer := old(g.dealtCards[g.declarer]) + g.dealtSkat]
    ensures multiplier == jacksMultiplier(old(g.dealtCards[g.declarer]) + g.dealtSkat, g.gameType)
  {
    var declarerCards := GetDeclarerCards(g);
    multiplier := jacksMultiplier(declarerCards, g.gameType);
  }

  /**
   * The game result: the multiplier starts at the jacks term, read from the
   * declarer's cards (which appends the skat to them in place), and is
   * raised one step per bonus; the value is base value times multiplier,
   * doubled and negated for a lost game.
   */
  method CalcGameResult(g: SkatGameData, jacksMultiplier: (seq<Card>, GameType) -> int,
                        baseValue: int, f: ScoringFlags) returns (result: int)
    requires g.Valid()
    modifies g`dealtCards
    ensures g.Valid()
    ensures g.dealtCards == old(g.dealtCards)[g.declarer := old(g.dealtCards[g.declarer]) + g.dealtSkat]
    ensures var jacks := jacksMultiplier(old(g.dealtCards[g.declarer]) + g.dealtSkat, g.gameType);
            && result == GameValue(jacks, baseValue, f)
            && (jacks > 0 && baseValue > 0 ==> (result > 0 <==> !f.lost))
  {
    var multiplier := GetMultiplier(g, jacksMultiplier);
    if f.hand {
      multiplier := multiplier + 1;
    }
    if f.ouvert {
      multiplier := multiplier + 1;
    }
    if f.schneider {
      multiplier := multiplier + 1;
      if f.hand && f.schneiderAnnounced {
        multiplier := multiplier + 1;
      }
    }
    if f.schwarz {
      multiplier := multiplier + 1;
      if f.hand && f.schwarzAnnounced {
        multiplier := multiplier + 1;
      }
    }
    result := baseValue * multiplier;
    if f.lost {
      result := result * -2;
    }
  }
}
