/**
 * The hand of hand.py: the cards one side holds, drawn from a deck, and the
 * Blackjack scoring rules over them (soft, hard and optimal totals).
 */
module Hands {
  import opened Cards
  import opened Decks
  import opened Results

  /** The number of cards a new hand is dealt. */
  const HAND_START_SIZE: nat := 2

  /** The highest total a hand may have without busting. */
  const HAND_LIMIT: int := 21

  /** What demoting one ace from 11 to 1 takes off a total. */
  const ACE_DEMOTION: int := 10

  // ---------------------------------------------------------------------------
  // Scoring, as functions of the cards held

  /** The number of aces in cs. */
  function Aces(cs: seq<Card>): (n: nat)
    ensures n <= |cs|
    ensures n == 0 <==> forall k :: 0 <= k < |cs| ==> !IsAce(cs[k])
  {
    if cs == [] then 0
    else Aces(cs[..|cs| - 1]) + (if IsAce(cs[|cs| - 1]) then 1 else 0)
  }

  /** The soft values of the rows among RANK_VALUES[..k] whose rank is `rank`, summed. */
  function RowsSoft(rank: string, k: nat): (total: int)
    requires k <= |RANK_VALUES|
  {
    if k == 0 then 0
    else RowsSoft(rank, k - 1) + (if RANK_VALUES[k - 1].rank == rank then RANK_VALUES[k - 1].soft else 0)
  }

  /** The hard values of the rows among RANK_VALUES[..k] whose rank is `rank`, summed. */
  function RowsHard(rank: string, k: nat): (total: int)
    requires k <= |RANK_VALUES|
  {
    if k == 0 then 0
    else RowsHard(rank, k - 1) + (if RANK_VALUES[k - 1].rank == rank then RANK_VALUES[k - 1].hard else 0)
  }

  /** The soft value of a hand: each card's rank looked up in the table, aces at 1. */
  function Soft(cs: seq<Card>): (total: int) {
    if cs == [] then 0
    else Soft(cs[..|cs| - 1]) + RowsSoft(cs[|cs| - 1].rank, |RANK_VALUES|)
  }

  /** The hard value of a hand: each card's rank looked up in the table, aces at 11. */
  function Hard(cs: seq<Card>): (total: int) {
    if cs == [] then 0
    else Hard(cs[..|cs| - 1]) + RowsHard(cs[|cs| - 1].rank, |RANK_VALUES|)
  }

  /** The hard value with j aces counted as 1 instead of 11. */
  function Total(cs: seq<Card>, j: nat): (total: int) {
    Hard(cs) - ACE_DEMOTION * j
  }

  /**
   * The loop of optimal_value: while an ace is left to convert and the total
   * is over the limit, take 10 off the total.
   */
  function Demote(total: int, aces: nat): (score: int) {
    if aces > 0 && total > HAND_LIMIT then Demote(total - ACE_DEMOTION, aces - 1) else total
  }

  /** optimal_value: the hard value if it is within the limit, else the demoted total. */
  function Optimal(cs: seq<Card>): (score: int) {
    if Hard(cs) <= HAND_LIMIT then Hard(cs) else Demote(Hard(cs), Aces(cs))
  }

  /** is_blackjack: two cards worth 21. */
  predicate Blackjack(cs: seq<Card>) {
    |cs| == HAND_START_SIZE && Optimal(cs) == HAND_LIMIT
  }

  /** is_bust: worth more than 21. */
  predicate Bust(cs: seq<Card>) {
    Optimal(cs) > HAND_LIMIT
  }

  // ---------------------------------------------------------------------------
  // Properties of the scoring rules

  /** The inner loop over RANK_VALUES finds the one row named `rank`, or adds nothing. */
  lemma {:induction false} RowsLookup(rank: string, k: nat)
    requires k <= |RANK_VALUES|
    ensures RankRow(rank, 0) < k ==>
      RowsSoft(rank, k) == RANK_VALUES[RankRow(rank, 0)].soft &&
      RowsHard(rank, k) == RANK_VALUES[RankRow(rank, 0)].hard
    ensures k <= RankRow(rank, 0) ==> RowsSoft(rank, k) == 0 && RowsHard(rank, k) == 0
  {
    if k > 0 {
      RowsLookup(rank, k - 1);
      var row := RankRow(rank, 0);
      if RANK_VALUES[k - 1].rank == rank {
        RankRowIsUnique(rank, k - 1);
        assert row == k - 1;
      } else {
        assert row != k - 1;
      }
    }
  }

  /** Looked up by rank, an ace is worth 10 more hard than soft and any other rank the same. */
  lemma RankValueGap(rank: string)
    ensures RowsHard(rank, |RANK_VALUES|) - RowsSoft(rank, |RANK_VALUES|) ==
      if rank == "Ace" then ACE_DEMOTION else 0
  {
    RankTable();
    RowsLookup(rank, |RANK_VALUES|);
    if rank == "Ace" {
      RankRowIsUnique(rank, 0);
    }
  }

  /** The table lookup of a standard card gives the card's own soft and hard value. */
  lemma StandardCardLookup(c: Card)
    requires IsStandard(c)
    ensures RowsSoft(c.rank, |RANK_VALUES|) == c.softValue
    ensures RowsHard(c.rank, |RANK_VALUES|) == c.hardValue
  {
    RowsLookup(c.rank, |RANK_VALUES|);
  }

  /** hard - soft = 10 * aces. */
  lemma {:induction false} HardMinusSoft(cs: seq<Card>)
    ensures Hard(cs) - Soft(cs) == ACE_DEMOTION * Aces(cs)
  {
    if cs != [] {
      HardMinusSoft(cs[..|cs| - 1]);
      RankValueGap(cs[|cs| - 1].rank);
    }
  }

  /** hard >= soft, and they are equal exactly when the hand holds no ace. */
  lemma SoftAtMostHard(cs: seq<Card>)
    ensures Soft(cs) <= Hard(cs)
    ensures Soft(cs) == Hard(cs) <==> Aces(cs) == 0
    ensures Total(cs, Aces(cs)) == Soft(cs)
  {
    HardMinusSoft(cs);
  }

  /** The demotion loop takes off a multiple of 10, at most once per ace, and stops within the limit unless out of aces. */
  lemma {:induction false} DemoteSteps(total: int, aces: nat)
    ensures total - ACE_DEMOTION * aces <= Demote(total, aces) <= total
    ensures (total - Demote(total, aces)) % ACE_DEMOTION == 0
    ensures Demote(total, aces) > HAND_LIMIT ==> Demote(total, aces) == total - ACE_DEMOTION * aces
  {
    if aces > 0 && total > HAND_LIMIT {
      DemoteSteps(total - ACE_DEMOTION, aces - 1);
    }
  }

  /** Any total the loop could reach within the limit is no larger than where it stops. */
  lemma {:induction false} DemoteIsLargest(total: int, aces: nat, j: nat)
    requires j <= aces && total - ACE_DEMOTION * j <= HAND_LIMIT
    ensures total - ACE_DEMOTION * j <= Demote(total, aces) <= HAND_LIMIT
  {
    if aces > 0 && total > HAND_LIMIT {
      DemoteIsLargest(total - ACE_DEMOTION, aces - 1, j - 1);
    }
  }

  /** soft <= optimal <= hard, and optimal is hard with some number of aces demoted. */
  lemma OptimalBetweenSoftAndHard(cs: seq<Card>)
    ensures Soft(cs) <= Optimal(cs) <= Hard(cs)
    ensures exists j :: 0 <= j <= Aces(cs) && Optimal(cs) == Total(cs, j)
  {
    SoftAtMostHard(cs);
    if Hard(cs) <= HAND_LIMIT {
      assert Optimal(cs) == Total(cs, 0);
    } else {
      DemoteSteps(Hard(cs), Aces(cs));
      var j := (Hard(cs) - Optimal(cs)) / ACE_DEMOTION;
      assert Optimal(cs) == Total(cs, j);
    }
  }

  /** optimal is the largest total within 21 reachable by demoting aces. */
  lemma OptimalIsLargestWithinLimit(cs: seq<Card>, j: nat)
    requires j <= Aces(cs) && Total(cs, j) <= HAND_LIMIT
    ensures Total(cs, j) <= Optimal(cs) <= HAND_LIMIT
  {
    if Hard(cs) > HAND_LIMIT {
      DemoteIsLargest(Hard(cs), Aces(cs), j);
    }
  }

  /** When no demotion brings the total within 21, optimal is the soft value. */
  lemma OptimalWhenNothingFits(cs: seq<Card>)
    requires forall j :: 0 <= j <= Aces(cs) ==> Total(cs, j) > HAND_LIMIT
    ensures Optimal(cs) == Soft(cs) > HAND_LIMIT
  {
    SoftAtMostHard(cs);
    assert Total(cs, 0) > HAND_LIMIT;
    assert Total(cs, Aces(cs)) > HAND_LIMIT;
    DemoteSteps(Hard(cs), Aces(cs));
    OptimalBetweenSoftAndHard(cs);
    var j :| 0 <= j <= Aces(cs) && Optimal(cs) == Total(cs, j);
  }

  /** A hand busts exactly when even its soft value is over 21. */
  lemma BustIffSoftOver(cs: seq<Card>)
    ensures Bust(cs) <==> Soft(cs) > HAND_LIMIT
  {
    SoftAtMostHard(cs);
    OptimalBetweenSoftAndHard(cs);
    if Soft(cs) <= HAND_LIMIT {
      OptimalIsLargestWithinLimit(cs, Aces(cs));
    }
  }

  /** Adding a card adds its looked-up values to the totals, and one to the aces for an ace. */
  lemma AppendCard(cs: seq<Card>, c: Card)
    ensures Soft(cs + [c]) == Soft(cs) + RowsSoft(c.rank, |RANK_VALUES|)
    ensures Hard(cs + [c]) == Hard(cs) + RowsHard(c.rank, |RANK_VALUES|)
    ensures Aces(cs + [c]) == Aces(cs) + (if IsAce(c) then 1 else 0)
  {
    assert (cs + [c])[..|cs|] == cs;
  }

  /** The soft and hard value, and the ace count, of a two-card hand. */
  lemma TwoCardValues(cs: seq<Card>)
    requires |cs| == 2
    ensures Soft(cs) == RowsSoft(cs[0].rank, |RANK_VALUES|) + RowsSoft(cs[1].rank, |RANK_VALUES|)
    ensures Hard(cs) == RowsHard(cs[0].rank, |RANK_VALUES|) + RowsHard(cs[1].rank, |RANK_VALUES|)
    ensures Aces(cs) == (if IsAce(cs[0]) then 1 else 0) + (if IsAce(cs[1]) then 1 else 0)
  {
    AppendCard([], cs[0]);
    AppendCard([cs[0]], cs[1]);
    assert [cs[0]] + [cs[1]] == cs;
  }

  /** Two standard cards are a blackjack exactly when one is an ace and the other is worth 10. */
  lemma BlackjackIffAceAndTen(cs: seq<Card>)
    requires |cs| == 2 && IsStandard(cs[0]) && IsStandard(cs[1])
    ensures Blackjack(cs) <==>
      (IsAce(cs[0]) && cs[1].hardValue == 10) || (IsAce(cs[1]) && cs[0].hardValue == 10)
  {
    TwoCardValues(cs);
    StandardCardLookup(cs[0]);
    StandardCardLookup(cs[1]);
    StandardValues(cs[0]);
    StandardValues(cs[1]);
    if IsAce(cs[0]) && IsAce(cs[1]) {
      assert Hard(cs) == 22 && Aces(cs) == 2;
      assert Demote(22, 2) == Demote(12, 1) == 12;
    } else {
      assert Hard(cs) <= HAND_LIMIT;
    }
  }

  /** The table values of the card at rank row i, found by the lookup by rank name. */
  lemma RankLookup(i: nat, j: nat)
    requires i < |RANK_VALUES| && j < |CARD_SUITS|
    ensures RowsSoft(StandardCard(i, j).rank, |RANK_VALUES|) == RANK_VALUES[i].soft
    ensures RowsHard(StandardCard(i, j).rank, |RANK_VALUES|) == RANK_VALUES[i].hard
  {
    RankTable();
    RankRowIsUnique(RANK_VALUES[i].rank, i);
    RowsLookup(RANK_VALUES[i].rank, |RANK_VALUES|);
  }

  /** The soft and hard value, and the ace count, of a three-card hand. */
  lemma ThreeCardValues(cs: seq<Card>)
    requires |cs| == 3
    ensures Soft(cs) == Soft(cs[..2]) + RowsSoft(cs[2].rank, |RANK_VALUES|)
    ensures Hard(cs) == Hard(cs[..2]) + RowsHard(cs[2].rank, |RANK_VALUES|)
    ensures Aces(cs) == Aces(cs[..2]) + (if IsAce(cs[2]) then 1 else 0)
  {
    AppendCard(cs[..2], cs[2]);
    assert cs[..2] + [cs[2]] == cs;
  }

  /** Ace of Clubs and King of Diamonds: optimal 21, a blackjack. */
  lemma AceKingIsBlackjack()
    ensures var cs := [StandardCard(0, 0), StandardCard(12, 1)];
      Optimal(cs) == HAND_LIMIT && Blackjack(cs)
  {
    var cs := [StandardCard(0, 0), StandardCard(12, 1)];
    RankLookup(0, 0);
    RankLookup(12, 1);
    TwoCardValues(cs);
    assert Hard(cs) == 21;
  }

  /** Ten, Seven and Five: no ace, soft = hard = 22, a bust. */
  lemma TenSevenFiveBusts()
    ensures var cs := [StandardCard(9, 0), StandardCard(6, 0), StandardCard(4, 0)];
      Aces(cs) == 0 && Soft(cs) == Hard(cs) == 22 && Bust(cs)
  {
    var cs := [StandardCard(9, 0), StandardCard(6, 0), StandardCard(4, 0)];
    RankLookup(9, 0);
    RankLookup(6, 0);
    RankLookup(4, 0);
    TwoCardValues(cs[..2]);
    ThreeCardValues(cs);
    assert Hard(cs) == 22 && Aces(cs) == 0;
  }

  /** Ace, Ace, Nine: soft 11, hard 31, optimal 21 after one demotion, not a blackjack. */
  lemma AceAceNine()
    ensures var cs := [StandardCard(0, 0), StandardCard(0, 1), StandardCard(8, 2)];
      Soft(cs) == 11 && Hard(cs) == 31 && Optimal(cs) == HAND_LIMIT && !Blackjack(cs)
  {
    var cs := [StandardCard(0, 0), StandardCard(0, 1), StandardCard(8, 2)];
    RankLookup(0, 0);
    RankLookup(0, 1);
    RankLookup(8, 2);
    TwoCardValues(cs[..2]);
    ThreeCardValues(cs);
    assert Hard(cs) == 31 && Aces(cs) == 2;
    assert Demote(31, 2) == Demote(21, 1) == 21;
  }

  /**
   * Adding a card can lower the optimal value: Ace and Nine make 20, and a
   * Five then makes 15 (the ace drops to 1).
   */
  lemma OptimalCanDrop()
    ensures var before := [StandardCard(0, 0), StandardCard(8, 0)];
      Optimal(before) == 20 && Optimal(before + [StandardCard(4, 0)]) == 15
  {
    var before := [StandardCard(0, 0), StandardCard(8, 0)];
    var after := before + [StandardCard(4, 0)];
    RankLookup(0, 0);
    RankLookup(8, 0);
    RankLookup(4, 0);
    TwoCardValues(before);
    AppendCard(before, StandardCard(4, 0));
    assert Hard(before) == 20 && Hard(after) == 25 && Aces(after) == 1;
    assert Demote(25, 1) == Demote(15, 0) == 15;
  }

  // ---------------------------------------------------------------------------
  // Display

  /** The number of columns __str__ lays out a hand of n cards in. */
  function ColumnCount(n: nat): (cols: nat)
    ensures 1 <= cols <= 4
    ensures cols == 1 <==> n < 4
  {
    if n < 4 then 1 else if n < 5 then 2 else if n < 7 then 3 else 4
  }

  /**
   * The doc comment's promise: from 4 to 8 cards no card is left alone on the
   * last row; from 9 cards on, the last row is a lone card exactly when n is 1 more than a multiple of 4.
   */
  lemma ColumnsAvoidOrphans(n: nat)
    ensures 4 <= n <= 8 ==> n % ColumnCount(n) != 1
    ensures 9 <= n ==> (n % ColumnCount(n) == 1 <==> n % 4 == 1)
  {
  }

  /** A larger hand never gets fewer columns. */
  lemma ColumnsGrow(n: nat, m: nat)
    requires n <= m
    ensures ColumnCount(n) <= ColumnCount(m)
  {
  }

  // ---------------------------------------------------------------------------
  // The code as written: is_ace raises

  /**
   * The loop of num_aces with the ace test as a parameter: ask each card in
   * turn, stop at the first test that raises, and otherwise count the aces.
   */
  function NumAcesWith(cs: seq<Card>, isAce: Card -> Result<bool>): (r: Result<nat>)
    ensures r.Ok? <==> forall k :: 0 <= k < |cs| ==> isAce(cs[k]).Ok?
    ensures r.Ok? ==> r.value <= |cs|
    ensures r.Err? ==> exists k :: 0 <= k < |cs| && isAce(cs[k]) == Err(r.error)
  {
    if cs == [] then Ok(0)
    else match isAce(cs[0])
      case Err(e) => Err(e)
      case Ok(b) =>
        match NumAcesWith(cs[1..], isAce)
        case Err(e) => Err(e)
        case Ok(n) => Ok(n + if b then 1 else 0)
  }

  /** With the intended ace test, the num_aces loop counts the aces. */
  lemma {:induction false} NumAcesWithIntended(cs: seq<Card>)
    ensures NumAcesWith(cs, c => Ok(IsAce(c))) == Ok(Aces(cs))
  {
    if cs != [] {
      NumAcesWithIntended(cs[1..]);
      AcesFront(cs);
    }
  }

  /** The ace count, taken from the front: the first card, then the rest. */
  lemma {:induction false} AcesFront(cs: seq<Card>)
    requires cs != []
    ensures Aces(cs) == (if IsAce(cs[0]) then 1 else 0) + Aces(cs[1..])
  {
    if |cs| > 1 {
      var init := cs[..|cs| - 1];
      AcesFront(init);
      assert init[1..] == cs[1..][..|cs[1..]| - 1];
      assert init[0] == cs[0];
    }
  }

  /** num_aces exactly as written, with is_ace as written: it raises on every hand with a card. */
  function NumAcesAsWritten(cs: seq<Card>): (r: Result<nat>)
    ensures cs == [] ==> r == Ok(0)
    ensures cs != [] ==> r.Err? && r.error.AttributeError?
  {
    NumAcesWith(cs, IsAceAsWritten)
  }

  /**
   * optimal_value exactly as written: it needs num_aces once the hard value is
   * over 21. It agrees with the intended value while the hard value is within
   * 21 and raises on every hand whose hard value is over 21.
   */
  function OptimalValueAsWritten(cs: seq<Card>): (r: Result<int>)
    ensures Hard(cs) <= HAND_LIMIT ==> r == Ok(Optimal(cs))
    ensures Hard(cs) > HAND_LIMIT ==> r.Err? && r.error.AttributeError?
  {
    if Hard(cs) <= HAND_LIMIT then Ok(Hard(cs))
    else match NumAcesAsWritten(cs)
      case Err(e) => Err(e)
      case Ok(n) => Ok(Demote(Hard(cs), n))
  }

  /**
   * is_blackjack exactly as written: a hand of other than two cards is not a
   * blackjack without scoring it; a two-card hand is scored by optimal_value,
   * which raises when its hard value is over 21 (two aces).
   */
  function IsBlackjackAsWritten(cs: seq<Card>): (r: Result<bool>)
    ensures |cs| != HAND_START_SIZE ==> r == Ok(false)
    ensures |cs| == HAND_START_SIZE && Hard(cs) <= HAND_LIMIT ==> r == Ok(Blackjack(cs))
    ensures |cs| == HAND_START_SIZE && Hard(cs) > HAND_LIMIT ==> r.Err? && r.error.AttributeError?
  {
    if |cs| != HAND_START_SIZE then Ok(false)
    else match OptimalValueAsWritten(cs)
      case Err(e) => Err(e)
      case Ok(score) => Ok(score == HAND_LIMIT)
  }

  /**
   * is_bust exactly as written: it never reports a bust, since a hand whose
   * hard value is over 21 makes optimal_value raise.
   */
  function IsBustAsWritten(cs: seq<Card>): (r: Result<bool>)
    ensures Hard(cs) <= HAND_LIMIT ==> r == Ok(false) && !Bust(cs)
    ensures Hard(cs) > HAND_LIMIT ==> r.Err? && r.error.AttributeError?
  {
    match OptimalValueAsWritten(cs)
    case Err(e) => Err(e)
    case Ok(score) => Ok(score > HAND_LIMIT)
  }

  /** Ace and Ace: intended optimal 12, no blackjack; as written is_blackjack raises. */
  lemma AceAceBlackjackRaises()
    ensures var cs := [StandardCard(0, 0), StandardCard(0, 1)];
      Optimal(cs) == 12 && !Blackjack(cs) &&
      IsBlackjackAsWritten(cs).Err? && IsBlackjackAsWritten(cs).error.AttributeError?
  {
    var cs := [StandardCard(0, 0), StandardCard(0, 1)];
    RankLookup(0, 0);
    RankLookup(0, 1);
    TwoCardValues(cs);
    assert Hard(cs) == 22 && Aces(cs) == 2;
    assert Demote(22, 2) == Demote(12, 1) == 12;
  }

  /** King, Queen and Two: intended optimal 22, a bust; as written optimal_value raises. */
  lemma KingQueenTwoRaises()
    ensures var cs := [StandardCard(12, 0), StandardCard(11, 0), StandardCard(1, 0)];
      Optimal(cs) == 22 && Bust(cs) &&
      OptimalValueAsWritten(cs).Err? && OptimalValueAsWritten(cs).error.AttributeError?
  {
    var cs := [StandardCard(12, 0), StandardCard(11, 0), StandardCard(1, 0)];
    RankLookup(12, 0);
    RankLookup(11, 0);
    RankLookup(1, 0);
    TwoCardValues(cs[..2]);
    ThreeCardValues(cs);
    assert Hard(cs) == 22 && Aces(cs) == 0;
  }

  // ---------------------------------------------------------------------------
  // The hand object

  function Min(a: int, b: int): (m: int) {
    if a <= b then a else b
  }

  /** A hand: the list `_cards` of the cards held, in draw order. */
  class Hand {
    var cards: seq<Card>

    /** Every card held is one of the standard 52. */
    ghost predicate Valid()
      reads this
    {
      forall k :: 0 <= k < |cards| ==> IsStandard(cards[k])
    }

    /**
     * __init__: a hand of the next two cards of the deck. A deck that runs out
     * raises IndexError after the cards it could give; a constructor cannot
     * fail, so that case shows as a hand of fewer than two cards.
     */
    constructor (deck: Deck)
      requires deck.Valid()
      modifies deck`numDrawn
      ensures Valid() && deck.Valid()
      ensures cards == old(deck.Undrawn())[..Min(HAND_START_SIZE, old(deck.Size()))]
      ensures deck.numDrawn == old(deck.numDrawn) + |cards|
    {
      cards := [];
      new;
      var _ := DealStart(deck);
    }

    /**
     * The loop of __init__ and get_new_hand: append the next card of the deck
     * twice (each step is draw_card's), stopping at the IndexError of an
     * exhausted deck.
     */
    method DealStart(deck: Deck) returns (r: Outcome)
      requires deck.Valid() && Valid()
      modifies this, deck`numDrawn
      ensures Valid() && deck.Valid()
      ensures cards == old(cards) + old(deck.Undrawn())[..Min(HAND_START_SIZE, old(deck.Size()))]
      ensures deck.numDrawn == old(deck.numDrawn) + Min(HAND_START_SIZE, old(deck.Size()))
      ensures r.Pass? <==> old(deck.Size()) >= HAND_START_SIZE
      ensures r.Fail? ==> r == Fail(IndexError("The deck has been exhausted of cards."))
    {
      ghost var coming := deck.Undrawn();
      assert |coming| == deck.Size();
      var n := 0;
      while n < HAND_START_SIZE
        invariant deck.Valid() && Valid()
        invariant n <= HAND_START_SIZE && n <= |coming|
        invariant deck.numDrawn == old(deck.numDrawn) + n
        invariant deck.Undrawn() == coming[n..]
        invariant cards == old(cards) + coming[..n]
      {
        r := DrawCard(deck);
        if r.Fail? {
          assert n == |coming|;
          return;
        }
        assert coming[..n + 1] == coming[..n] + [coming[n]];
        assert coming[n..] == [coming[n]] + coming[n + 1..];
        n := n + 1;
      }
      return Pass;
    }

    /** get_new_hand: throw the cards away and deal two new ones from the deck. */
    method GetNewHand(deck: Deck) returns (r: Outcome)
      requires deck.Valid() && Valid()
      modifies this, deck`numDrawn
      ensures Valid() && deck.Valid()
      ensures cards == old(deck.Undrawn())[..Min(HAND_START_SIZE, old(deck.Size()))]
      ensures deck.numDrawn == old(deck.numDrawn) + |cards|
      ensures r.Pass? <==> old(deck.Size()) >= HAND_START_SIZE
      ensures r.Fail? ==> r == Fail(IndexError("The deck has been exhausted of cards."))
    {
      cards := [];
      r := DealStart(deck);
    }

    /** draw_card: add the deck's next card at the end; on an exhausted deck raise and change nothing. */
    method DrawCard(deck: Deck) returns (r: Outcome)
      requires deck.Valid() && Valid()
      modifies this, deck`numDrawn
      ensures Valid() && deck.Valid()
      ensures old(deck.Size()) > 0 ==>
        r == Pass && cards == old(cards) + [old(deck.Undrawn())[0]] && deck.numDrawn == old(deck.numDrawn) + 1
      ensures old(deck.Size()) == 0 ==>
        r == Fail(IndexError("The deck has been exhausted of cards.")) && cards == old(cards) &&
        deck.numDrawn == old(deck.numDrawn)
    {
      var drawn := deck.DrawCard();
      if drawn.Err? {
        return Fail(drawn.error);
      }
      cards := cards + [drawn.value];
      return Pass;
    }

    /** num_aces: count the cards whose rank is Ace. */
    method NumAces() returns (n: nat)
      ensures n == Aces(cards)
    {
      n := 0;
      var i := 0;
      while i < |cards|
        invariant i <= |cards|
        invariant n == Aces(cards[..i])
      {
        if IsAce(cards[i]) {
          n := n + 1;
        }
        AppendCard(cards[..i], cards[i]);
        assert cards[..i + 1] == cards[..i] + [cards[i]];
        i := i + 1;
      }
      assert cards[..i] == cards;
    }

    /** soft_value: for each card, add the soft value of every table row with its rank. */
    method SoftValue() returns (total: int)
      ensures total == Soft(cards)
    {
      total := 0;
      var i := 0;
      while i < |cards|
        invariant i <= |cards|
        invariant total == Soft(cards[..i])
      {
        var k := 0;
        while k < |RANK_VALUES|
          invariant k <= |RANK_VALUES|
          invariant total == Soft(cards[..i]) + RowsSoft(cards[i].rank, k)
        {
          if cards[i].rank == RANK_VALUES[k].rank {
            total := total + RANK_VALUES[k].soft;
          }
          k := k + 1;
        }
        AppendCard(cards[..i], cards[i]);
        assert cards[..i + 1] == cards[..i] + [cards[i]];
        i := i + 1;
      }
      assert cards[..i] == cards;
    }

    /** hard_value: for each card, add the hard value of every table row with its rank. */
    method HardValue() returns (total: int)
      ensures total == Hard(cards)
    {
      total := 0;
      var i := 0;
      while i < |cards|
        invariant i <= |cards|
        invariant total == Hard(cards[..i])
      {
        var k := 0;
        while k < |RANK_VALUES|
          invariant k <= |RANK_VALUES|
          invariant total == Hard(cards[..i]) + RowsHard(cards[i].rank, k)
        {
          if cards[i].rank == RANK_VALUES[k].rank {
            total := total + RANK_VALUES[k].hard;
          }
          k := k + 1;
        }
        AppendCard(cards[..i], cards[i]);
        assert cards[..i + 1] == cards[..i] + [cards[i]];
        i := i + 1;
      }
      assert cards[..i] == cards;
    }

    /**
     * optimal_value: the hard value if within 21; otherwise convert aces one
     * at a time while the total stays over 21.
     */
    method OptimalValue() returns (score: int)
      ensures score == Optimal(cards)
      ensures Soft(cards) <= score <= Hard(cards)
      ensures forall j :: 0 <= j <= Aces(cards) && Total(cards, j) <= HAND_LIMIT ==>
        Total(cards, j) <= score <= HAND_LIMIT
    {
      var hard := HardValue();
      OptimalBetweenSoftAndHard(cards);
      forall j | 0 <= j <= Aces(cards) && Total(cards, j) <= HAND_LIMIT
        ensures Total(cards, j) <= Optimal(cards) <= HAND_LIMIT
      {
        OptimalIsLargestWithinLimit(cards, j);
      }
      if hard <= HAND_LIMIT {
        return hard;
      }
      score := hard;
      var convertible := NumAces();
      while convertible > 0 && score > HAND_LIMIT
        invariant Demote(score, convertible) == Demote(hard, Aces(cards))
      {
        score := score - ACE_DEMOTION;
        convertible := convertible - 1;
      }
    }

    /** is_blackjack: two cards and an optimal value of 21. */
    method IsBlackjack() returns (b: bool)
      requires Valid()
      ensures b <==> Blackjack(cards)
      ensures b <==> (|cards| == HAND_START_SIZE &&
        ((IsAce(cards[0]) && cards[1].hardValue == 10) || (IsAce(cards[1]) && cards[0].hardValue == 10)))
    {
      b := false;
      if |cards| == HAND_START_SIZE {
        var score := OptimalValue();
        b := score == HAND_LIMIT;
        BlackjackIffAceAndTen(cards);
      }
    }

    /** is_bust: an optimal value over 21. */
    method IsBust() returns (b: bool)
      ensures b <==> Bust(cards)
      ensures b <==> Soft(cards) > HAND_LIMIT
    {
      var score := OptimalValue();
      b := score > HAND_LIMIT;
      BustIffSoftOver(cards);
    }
  }
}
