/**
 * The deck of deck.py: the 52 standard cards in a list that is shuffled in
 * place, and a cursor counting how many of them have been drawn.
 */
module Decks {
  import opened Cards
  import opened Results

  /** The number of cards in a deck: one per rank and suit. */
  const DECK_SIZE: nat := 52

  /**
   * The list built by Deck.__init__ before shuffling: for each rank in table
   * order, one card of each suit in table order.
   */
  function FreshOrder(): (s: seq<Card>)
    ensures |s| == DECK_SIZE
    ensures forall k :: 0 <= k < |s| ==> s[k] == StandardCard(k / 4, k % 4)
  {
    RankTable();
    SuitTable();
    seq(DECK_SIZE, k requires 0 <= k < DECK_SIZE => StandardCard(k / 4, k % 4))
  }

  /** The fresh list holds no card twice. */
  lemma FreshOrderDistinct()
    ensures Distinct(FreshOrder())
  {
    RankTable();
    RankNamesDistinct();
    SuitTable();
    var s := FreshOrder();
    forall k, m | 0 <= k < m < |s| ensures s[k] != s[m] {
      if k / 4 == m / 4 {
        assert k % 4 != m % 4;
        assert s[k].suit == CARD_SUITS[k % 4] != CARD_SUITS[m % 4] == s[m].suit;
      } else {
        assert s[k].rank == CARD_RANKS[k / 4] != CARD_RANKS[m / 4] == s[m].rank;
      }
    }
  }

  /** Every rank and suit pair is in the fresh list, at position 4 * rank + suit. */
  lemma FreshOrderComplete(i: nat, j: nat)
    requires i < |RANK_VALUES| && j < |CARD_SUITS|
    ensures 4 * i + j < DECK_SIZE && FreshOrder()[4 * i + j] == StandardCard(i, j)
  {
    RankTable();
    SuitTable();
    assert (4 * i + j) / 4 == i && (4 * i + j) % 4 == j;
  }

  /** Every card in the fresh list is a standard card. */
  lemma FreshOrderStandard(c: Card)
    requires c in FreshOrder()
    ensures IsStandard(c)
  {
    var s := FreshOrder();
    var k :| 0 <= k < |s| && s[k] == c;
    StandardCardIsStandard(k / 4, k % 4);
  }

  /** A sequence holds no value twice exactly when it holds every value at most once. */
  lemma {:induction false} DistinctCounts<T>(s: seq<T>)
    ensures Distinct(s) <==> forall x :: multiset(s)[x] <= 1
  {
    if s != [] {
      var rest := s[1..];
      assert s == [s[0]] + rest;
      DistinctCounts(rest);
      if Distinct(s) {
        assert Distinct(rest) by {
          forall k, m | 0 <= k < m < |rest| ensures rest[k] != rest[m] {
            assert rest[k] == s[k + 1] && rest[m] == s[m + 1];
          }
        }
        assert s[0] !in rest by {
          forall k | 0 <= k < |rest| ensures rest[k] != s[0] {
            assert rest[k] == s[k + 1];
          }
        }
      } else {
        var k, m :| 0 <= k < m < |s| && s[k] == s[m];
        if k == 0 {
          assert s[m] == rest[m - 1];
          assert multiset(s)[s[0]] == 1 + multiset(rest)[s[0]] >= 2;
        } else {
          assert rest[k - 1] == rest[m - 1];
          assert !Distinct(rest);
          var x :| multiset(rest)[x] > 1;
          assert multiset(s)[x] >= multiset(rest)[x];
        }
      }
    }
  }

  /** A rearrangement of a sequence without repeats has no repeats. */
  lemma PermutationKeepsDistinct<T>(s: seq<T>, t: seq<T>)
    requires multiset(s) == multiset(t) && Distinct(t)
    ensures Distinct(s)
  {
    DistinctCounts(t);
    DistinctCounts(s);
  }

  /** Pigeonhole: values drawn without repeats from t are at most |t| in number. */
  lemma {:induction false} DistinctWithin<T>(s: seq<T>, t: seq<T>)
    requires Distinct(s)
    requires forall k :: 0 <= k < |s| ==> s[k] in t
    ensures |s| <= |t|
  {
    if s != [] {
      var i :| 0 <= i < |t| && t[i] == s[0];
      var rest, others := s[1..], t[..i] + t[i + 1..];
      forall k | 0 <= k < |rest| ensures rest[k] in others {
        assert rest[k] == s[k + 1] != s[0];
        var m :| 0 <= m < |t| && t[m] == rest[k];
        if m < i { assert others[m] == t[m]; } else { assert others[m - 1] == t[m]; }
      }
      assert Distinct(rest) by {
        forall k, m | 0 <= k < m < |rest| ensures rest[k] != rest[m] {
          assert rest[k] == s[k + 1] && rest[m] == s[m + 1];
        }
      }
      DistinctWithin(rest, others);
    }
  }

  /** Standard cards that are pairwise distinct number at most 52. */
  lemma AtMostDeckSize(s: seq<Card>)
    requires Distinct(s)
    requires forall k :: 0 <= k < |s| ==> IsStandard(s[k])
    ensures |s| <= DECK_SIZE
  {
    RankTable();
    SuitTable();
    forall k | 0 <= k < |s| ensures s[k] in FreshOrder() {
      var c := s[k];
      FreshOrderComplete(RankRow(c.rank, 0), IndexOfSuit(c.suit));
    }
    DistinctWithin(s, FreshOrder());
  }

  /**
   * random.shuffle, with the random draws as a parameter: for i from the last
   * position down to 1, swap position i with position picks[i], where
   * 0 <= picks[i] <= i.
   */
  method Shuffle<T>(a: array<T>, picks: seq<nat>)
    requires |picks| == a.Length
    requires forall i :: 0 <= i < |picks| ==> picks[i] <= i
    modifies a
    ensures multiset(a[..]) == old(multiset(a[..]))
  {
    var i := a.Length - 1;
    while i > 0
      invariant i < a.Length
      invariant multiset(a[..]) == old(multiset(a[..]))
    {
      var j := picks[i];
      a[i], a[j] := a[j], a[i];
      i := i - 1;
    }
  }

  /** A deck: the shuffled card list `_cards` and the cursor `_num_drawn`. */
  class Deck {
    var cards: array<Card>
    var numDrawn: nat

    /** The list is a rearrangement of the 52 standard cards and the cursor stays within it. */
    ghost predicate Valid()
      reads this, cards
    {
      cards.Length == DECK_SIZE && numDrawn <= cards.Length &&
      multiset(cards[..]) == multiset(FreshOrder()) && Distinct(cards[..])
    }

    /** The cards drawn since the last shuffle, in draw order. */
    ghost function Drawn(): seq<Card>
      reads this, cards
      requires Valid()
    {
      cards[..numDrawn]
    }

    /** The cards still to come, in the order they will be drawn. */
    ghost function Undrawn(): seq<Card>
      reads this, cards
      requires Valid()
    {
      cards[numDrawn..]
    }

    /** __init__: the 52 cards in rank-major order, shuffled, none drawn. */
    constructor (picks: seq<nat>)
      requires |picks| == DECK_SIZE
      requires forall i :: 0 <= i < |picks| ==> picks[i] <= i
      ensures Valid() && fresh(cards)
      ensures numDrawn == 0 && Undrawn() == cards[..]
    {
      var order := FreshOrder();
      cards := new Card[DECK_SIZE](k requires 0 <= k < DECK_SIZE => order[k]);
      numDrawn := 0;
      new;
      assert cards[..] == order;
      Shuffle(cards, picks);
      FreshOrderDistinct();
      PermutationKeepsDistinct(cards[..], order);
    }

    /** __len__: the number of cards left to draw. */
    function Size(): (n: int)
      reads this, cards
      requires Valid()
      ensures n == DECK_SIZE - numDrawn && 0 <= n <= DECK_SIZE
      ensures n == |Undrawn()|
    {
      cards.Length - numDrawn
    }

    /** is_empty: no card is left to draw. */
    predicate IsEmpty()
      reads this, cards
      requires Valid()
      ensures IsEmpty() <==> numDrawn == DECK_SIZE
      ensures IsEmpty() <==> Undrawn() == []
    {
      Size() <= 0
    }

    /** reshuffle: shuffle the whole list, drawn cards included, and reset the cursor. */
    method Reshuffle(picks: seq<nat>)
      requires Valid()
      requires |picks| == DECK_SIZE
      requires forall i :: 0 <= i < |picks| ==> picks[i] <= i
      modifies this, cards
      ensures Valid() && cards == old(cards)
      ensures multiset(cards[..]) == old(multiset(cards[..]))
      ensures numDrawn == 0 && Undrawn() == cards[..]
    {
      Shuffle(cards, picks);
      numDrawn := 0;
      FreshOrderDistinct();
      PermutationKeepsDistinct(cards[..], FreshOrder());
    }

    /**
     * draw_card: the card at the cursor, the cursor moved on by one; on an
     * exhausted deck an IndexError and nothing changes.
     */
    method DrawCard() returns (r: Result<Card>)
      requires Valid()
      modifies this`numDrawn
      ensures Valid()
      ensures old(numDrawn) < DECK_SIZE ==>
        r == Ok(cards[old(numDrawn)]) && numDrawn == old(numDrawn) + 1
      ensures old(numDrawn) == DECK_SIZE ==>
        r == Err(IndexError("The deck has been exhausted of cards.")) && numDrawn == old(numDrawn)
      ensures r.Ok? ==> IsStandard(r.value) && r.value !in old(Drawn())
      ensures r.Ok? ==> Drawn() == old(Drawn()) + [r.value] && old(Undrawn()) == [r.value] + Undrawn()
      ensures r.Err? ==> Undrawn() == []
    {
      if !IsEmpty() {
        var drawn := cards[numDrawn];
        assert cards[..numDrawn + 1] == cards[..numDrawn] + [drawn];
        assert cards[numDrawn..] == [drawn] + cards[numDrawn + 1..];
        DrawnIsNew(numDrawn);
        DeckCardStandard(numDrawn);
        numDrawn := numDrawn + 1;
        return Ok(drawn);
      }
      return Err(IndexError("The deck has been exhausted of cards."));
    }

    /** The card at the cursor has not been drawn since the last shuffle. */
    lemma DrawnIsNew(k: nat)
      requires Valid() && k < cards.Length
      ensures cards[k] !in cards[..k]
    {
      forall m | 0 <= m < k ensures cards[..k][m] != cards[k] {
        assert cards[..][m] != cards[..][k];
      }
    }

    /** Every card in a valid deck is one of the standard 52. */
    lemma DeckCardStandard(k: nat)
      requires Valid() && k < cards.Length
      ensures IsStandard(cards[k])
    {
      assert cards[k] in multiset(cards[..]);
      FreshOrderStandard(cards[k]);
    }
  }
}
