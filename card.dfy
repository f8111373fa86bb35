/**
 * The playing card of card.py: the fixed rank and suit tables, and a card
 * built from a rank name and a suit name by a case-insensitive lookup.
 * A card never changes after construction, so it is a datatype here.
 */
module Cards {
  import opened Results

  /** One row of RANK_VALUES: a rank name with its soft and its hard value. */
  datatype RankEntry = RankEntry(rank: string, soft: int, hard: int)

  /** RANK_VALUES: the thirteen ranks in order, each with its soft and hard value. */
  const RANK_VALUES: seq<RankEntry> := [
    RankEntry("Ace", 1, 11),    RankEntry("Two", 2, 2),     RankEntry("Three", 3, 3),
    RankEntry("Four", 4, 4),    RankEntry("Five", 5, 5),    RankEntry("Six", 6, 6),
    RankEntry("Seven", 7, 7),   RankEntry("Eight", 8, 8),   RankEntry("Nine", 9, 9),
    RankEntry("Ten", 10, 10),   RankEntry("Jack", 10, 10),  RankEntry("Queen", 10, 10),
    RankEntry("King", 10, 10)
  ]

  /** CARD_RANKS: the rank names, in table order. */
  const CARD_RANKS: seq<string> := [
    "Ace", "Two", "Three", "Four", "Five", "Six", "Seven",
    "Eight", "Nine", "Ten", "Jack", "Queen", "King"
  ]

  /** CARD_SUITS: the four suits. */
  const CARD_SUITS: seq<string> := ["Clubs", "Diamonds", "Hearts", "Spades"]

  predicate Distinct<T(==)>(s: seq<T>) {
    forall i, j :: 0 <= i < j < |s| ==> s[i] != s[j]
  }

  /** The shape of the rank table: 13 ranks named as in CARD_RANKS, only the ace has two values. */
  lemma RankTable()
    ensures |RANK_VALUES| == |CARD_RANKS| == 13
    ensures forall i :: 0 <= i < |RANK_VALUES| ==> CARD_RANKS[i] == RANK_VALUES[i].rank
    ensures RANK_VALUES[0] == RankEntry("Ace", 1, 11)
    ensures forall i :: 1 <= i < |RANK_VALUES| ==>
      RANK_VALUES[i].soft == RANK_VALUES[i].hard && 2 <= RANK_VALUES[i].soft <= 10
    ensures forall i :: 9 <= i < |RANK_VALUES| ==> RANK_VALUES[i].hard == 10
  {
  }

  /** The suit table holds four distinct suits. */
  lemma SuitTable()
    ensures |CARD_SUITS| == 4 && Distinct(CARD_SUITS)
  {
  }

  /** A card: `rank_`, `suit_`, `soft_value_` and `hard_value_`, read-only after construction. */
  datatype Card = Card(rank: string, suit: string, softValue: int, hardValue: int)

  // Python's str.capitalize, on ASCII letters (other characters are kept as they are).

  function UpperChar(ch: char): (r: char) {
    if 'a' <= ch <= 'z' then (ch as int - 32) as char else ch
  }

  function LowerChar(ch: char): (r: char) {
    if 'A' <= ch <= 'Z' then (ch as int + 32) as char else ch
  }

  function Lower(s: string): (r: string) {
    seq(|s|, i requires 0 <= i < |s| => LowerChar(s[i]))
  }

  /** The first character in upper case, the rest in lower case. */
  function Capitalize(s: string): (r: string)
    ensures |r| == |s|
    ensures forall i :: 0 < i < |s| ==> r[i] == LowerChar(s[i])
    ensures s != [] ==> r[0] == UpperChar(s[0])
  {
    if s == [] then [] else [UpperChar(s[0])] + Lower(s[1..])
  }

  /** Two strings that differ only in the case of their letters. */
  predicate SameIgnoringCase(a: string, b: string) {
    |a| == |b| && forall i :: 0 <= i < |a| ==> LowerChar(a[i]) == LowerChar(b[i])
  }

  /** Capitalizing forgets the case of the input, so the lookups below ignore case. */
  lemma CapitalizeIgnoresCase(a: string, b: string)
    requires SameIgnoringCase(a, b)
    ensures Capitalize(a) == Capitalize(b)
  {
    if a != [] {
      assert LowerChar(a[0]) == LowerChar(b[0]);
      assert UpperChar(a[0]) == UpperChar(LowerChar(a[0]));
      assert UpperChar(b[0]) == UpperChar(LowerChar(b[0]));
    }
  }

  /** Every name in the two tables is already capitalized. */
  lemma TablesCapitalized()
    ensures forall i :: 0 <= i < |CARD_RANKS| ==> Capitalize(CARD_RANKS[i]) == CARD_RANKS[i]
    ensures forall j :: 0 <= j < |CARD_SUITS| ==> Capitalize(CARD_SUITS[j]) == CARD_SUITS[j]
  {
    forall i | 0 <= i < |CARD_RANKS| ensures Capitalize(CARD_RANKS[i]) == CARD_RANKS[i] {
      CapitalizedWord(CARD_RANKS[i]);
    }
    forall j | 0 <= j < |CARD_SUITS| ensures Capitalize(CARD_SUITS[j]) == CARD_SUITS[j] {
      CapitalizedWord(CARD_SUITS[j]);
    }
  }

  /** A word of one capital letter followed by small letters is its own capitalization. */
  lemma CapitalizedWord(w: string)
    requires w != [] && 'A' <= w[0] <= 'Z'
    requires forall i :: 0 < i < |w| ==> 'a' <= w[i] <= 'z'
    ensures Capitalize(w) == w
  {
  }

  /**
   * The first row of RANK_VALUES, from row k on, whose rank is `name`;
   * |RANK_VALUES| when there is none.
   */
  function RankRow(name: string, k: nat): (row: nat)
    requires k <= |RANK_VALUES|
    ensures k <= row <= |RANK_VALUES|
    ensures row < |RANK_VALUES| ==> RANK_VALUES[row].rank == name
    ensures forall i :: k <= i < row ==> RANK_VALUES[i].rank != name
    decreases |RANK_VALUES| - k
  {
    if k == |RANK_VALUES| || RANK_VALUES[k].rank == name then k else RankRow(name, k + 1)
  }

  /** The row of the rank table named `name` exactly, if any. */
  lemma RankRowIsUnique(name: string, i: nat)
    requires i < |RANK_VALUES| && RANK_VALUES[i].rank == name
    ensures RankRow(name, 0) == i
  {
    RankNamesDistinct();
  }

  /** No two rows of the rank table share a name. */
  lemma RankNamesDistinct()
    ensures forall i, j :: 0 <= i < j < |RANK_VALUES| ==> RANK_VALUES[i].rank != RANK_VALUES[j].rank
  {
  }

  /** The position of a suit in CARD_SUITS. */
  function IndexOfSuit(suit: string): (j: nat)
    requires suit in CARD_SUITS
    ensures j < |CARD_SUITS| && CARD_SUITS[j] == suit
  {
    if suit == CARD_SUITS[0] then 0
    else if suit == CARD_SUITS[1] then 1
    else if suit == CARD_SUITS[2] then 2
    else 3
  }

  /**
   * The card that Card(rank, suit) builds: the rank found by capitalizing the
   * given name, with that rank's table values; on an unknown rank the defaults
   * "Ace" with both values 0; on an unknown suit the first suit.
   */
  function MakeCard(rank: string, suit: string): (c: Card)
    ensures c.rank in CARD_RANKS && c.suit in CARD_SUITS
    ensures forall i :: 0 <= i < |RANK_VALUES| && RANK_VALUES[i].rank == Capitalize(rank) ==>
      c.rank == RANK_VALUES[i].rank && c.softValue == RANK_VALUES[i].soft && c.hardValue == RANK_VALUES[i].hard
    ensures (forall i :: 0 <= i < |RANK_VALUES| ==> RANK_VALUES[i].rank != Capitalize(rank)) ==>
      c.rank == "Ace" && c.softValue == 0 && c.hardValue == 0
    ensures c.suit == if Capitalize(suit) in CARD_SUITS then Capitalize(suit) else "Clubs"
  {
    RankTable();
    RankNamesDistinct();
    var row := RankRow(Capitalize(rank), 0);
    var suitName := if Capitalize(suit) in CARD_SUITS then Capitalize(suit) else CARD_SUITS[0];
    if row < |RANK_VALUES| then
      Card(RANK_VALUES[row].rank, suitName, RANK_VALUES[row].soft, RANK_VALUES[row].hard)
    else
      Card(CARD_RANKS[0], suitName, 0, 0)
  }

  /**
   * Card.__init__: set the defaults, then scan RANK_VALUES and overwrite the
   * rank and both values on every row whose name matches; then pick the suit.
   */
  method NewCard(rank: string, suit: string) returns (c: Card)
    ensures c == MakeCard(rank, suit)
  {
    var rankField, softField, hardField := CARD_RANKS[0], 0, 0;
    var capsRank, capsSuit := Capitalize(rank), Capitalize(suit);
    ghost var row := RankRow(capsRank, 0);
    var k := 0;
    while k < |RANK_VALUES|
      invariant 0 <= k <= |RANK_VALUES|
      invariant row < k ==> RANK_VALUES[row] == RankEntry(rankField, softField, hardField)
      invariant k <= row ==> rankField == "Ace" && softField == 0 && hardField == 0
    {
      var entry := RANK_VALUES[k];
      if capsRank == entry.rank {
        RankRowIsUnique(capsRank, k);
        rankField, softField, hardField := entry.rank, entry.soft, entry.hard;
      }
      k := k + 1;
    }
    var suitField := if capsSuit in CARD_SUITS then capsSuit else CARD_SUITS[0];
    c := Card(rankField, suitField, softField, hardField);
  }

  /** A rank given in any mix of upper and lower case builds the same card. */
  lemma MakeCardIgnoresCase(rank: string, otherRank: string, suit: string, otherSuit: string)
    requires SameIgnoringCase(rank, otherRank) && SameIgnoringCase(suit, otherSuit)
    ensures MakeCard(rank, suit) == MakeCard(otherRank, otherSuit)
  {
    CapitalizeIgnoresCase(rank, otherRank);
    CapitalizeIgnoresCase(suit, otherSuit);
  }

  /** Naming a table rank and suit, in any case, builds exactly that card. */
  lemma MakeCardFromTable(rank: string, suit: string, i: nat, j: nat)
    requires i < |RANK_VALUES| && j < |CARD_SUITS|
    requires SameIgnoringCase(rank, CARD_RANKS[i]) && SameIgnoringCase(suit, CARD_SUITS[j])
    ensures MakeCard(rank, suit) == Card(CARD_RANKS[i], CARD_SUITS[j], RANK_VALUES[i].soft, RANK_VALUES[i].hard)
  {
    RankTable();
    TablesCapitalized();
    MakeCardIgnoresCase(rank, CARD_RANKS[i], suit, CARD_SUITS[j]);
    assert Capitalize(CARD_RANKS[i]) == RANK_VALUES[i].rank;
    assert Capitalize(CARD_SUITS[j]) == CARD_SUITS[j];
  }

  /**
   * A card of the standard 52: its rank names a row of the rank table, its
   * suit is a table suit, and its values are that row's.
   */
  predicate IsStandard(c: Card) {
    RankRow(c.rank, 0) < |RANK_VALUES| && c.suit in CARD_SUITS &&
    c == StandardCard(RankRow(c.rank, 0), IndexOfSuit(c.suit))
  }

  /** The standard card at row i of the rank table and position j of the suit table. */
  function StandardCard(i: nat, j: nat): (c: Card)
    requires i < |RANK_VALUES| && j < |CARD_SUITS|
  {
    Card(CARD_RANKS[i], CARD_SUITS[j], RANK_VALUES[i].soft, RANK_VALUES[i].hard)
  }

  /** The card at a rank row and suit position is the one Card.__init__ builds from those names. */
  lemma StandardCardIsStandard(i: nat, j: nat)
    requires i < |RANK_VALUES| && j < |CARD_SUITS|
    ensures StandardCard(i, j) == MakeCard(CARD_RANKS[i], CARD_SUITS[j])
    ensures IsStandard(StandardCard(i, j))
  {
    RankTable();
    SuitTable();
    MakeCardFromTable(CARD_RANKS[i], CARD_SUITS[j], i, j);
    RankRowIsUnique(CARD_RANKS[i], i);
    assert IndexOfSuit(CARD_SUITS[j]) == j;
  }

  /** A standard card is the card Card.__init__ builds from its own rank and suit names. */
  lemma StandardIsConstructed(c: Card)
    requires IsStandard(c)
    ensures c == MakeCard(c.rank, c.suit)
  {
    RankTable();
    StandardCardIsStandard(RankRow(c.rank, 0), IndexOfSuit(c.suit));
  }

  /**
   * is_ace, as its doc comment describes it: the card's rank is "Ace", the
   * rank of the first row of the rank table.
   */
  predicate IsAce(c: Card)
    ensures IsAce(c) <==> c.rank == RANK_VALUES[0].rank
  {
    c.rank == "Ace"
  }

  /** A standard ace is worth 1 or 11; any other standard card has one value, 2 to 10. */
  lemma StandardValues(c: Card)
    requires IsStandard(c)
    ensures IsAce(c) <==> c.hardValue == c.softValue + 10
    ensures IsAce(c) ==> c.softValue == 1 && c.hardValue == 11
    ensures !IsAce(c) ==> c.softValue == c.hardValue && 2 <= c.softValue <= 10
  {
    RankTable();
  }

  /**
   * is_ace exactly as written: it reads the attribute `_rank`, which the card's
   * __getattribute__ refuses for every name that starts with an underscore, so
   * it raises AttributeError on every card.
   */
  function IsAceAsWritten(c: Card): (r: Result<bool>)
    ensures r.Err? && r.error.AttributeError?
  {
    match ReadAttribute(c, "_rank")
    case Ok(value) => Ok(value == Text("Ace"))
    case Err(e) => Err(e)
  }

  /** The value of a card's attribute: a name or a number. */
  datatype Attribute = Text(text: string) | Number(number: int)

  /**
   * Card.__getattribute__ for names that start with an underscore and for the
   * card's four data attributes.
   */
  function ReadAttribute(c: Card, attr: string): (r: Result<Attribute>)
    requires (|attr| > 0 && attr[0] == '_') ||
      attr in ["rank_", "suit_", "soft_value_", "hard_value_"]
    ensures |attr| > 0 && attr[0] == '_' ==> r.Err? && r.error.AttributeError?
    ensures attr == "rank_" ==> r == Ok(Text(c.rank))
    ensures attr == "suit_" ==> r == Ok(Text(c.suit))
    ensures attr == "soft_value_" ==> r == Ok(Number(c.softValue))
    ensures attr == "hard_value_" ==> r == Ok(Number(c.hardValue))
  {
    if |attr| > 0 && attr[0] == '_' then Err(AttributeError("Attribute '" + attr + "' is inaccessible."))
    else if attr == "rank_" then Ok(Text(c.rank))
    else if attr == "suit_" then Ok(Text(c.suit))
    else if attr == "soft_value_" then Ok(Number(c.softValue))
    else Ok(Number(c.hardValue))
  }

  /** __str__: "{rank} of {suit}". */
  function ToString(c: Card): (r: string)
    ensures |r| == |c.rank| + 4 + |c.suit|
    ensures r[..|c.rank|] == c.rank && r[|c.rank|..|c.rank| + 4] == " of " && r[|c.rank| + 4..] == c.suit
  {
    c.rank + " of " + c.suit
  }

  /** No rank name contains a space. */
  lemma RanksHaveNoSpace(name: string)
    requires name in CARD_RANKS
    ensures forall k :: 0 <= k < |name| ==> name[k] != ' '
  {
  }

  /** The characters of "{rank} of {suit}": the rank, then a space. */
  lemma ShowCharacters(rank: string, suit: string)
    ensures forall k :: 0 <= k < |rank| ==> (rank + " of " + suit)[k] == rank[k]
    ensures (rank + " of " + suit)[|rank|] == ' '
  {
  }

  /** "{rank} of {suit}" splits back into its rank and suit when ranks hold no space. */
  lemma SplitAtOf(rank: string, suit: string, otherRank: string, otherSuit: string)
    requires forall k :: 0 <= k < |rank| ==> rank[k] != ' '
    requires forall k :: 0 <= k < |otherRank| ==> otherRank[k] != ' '
    requires rank + " of " + suit == otherRank + " of " + otherSuit
    ensures rank == otherRank && suit == otherSuit
  {
    var s := rank + " of " + suit;
    ShowCharacters(rank, suit);
    ShowCharacters(otherRank, otherSuit);
    if |rank| < |otherRank| {
      assert false;
    } else if |otherRank| < |rank| {
      assert false;
    } else {
      assert rank == s[..|rank|] == otherRank;
      assert suit == s[|rank| + 4..] == otherSuit;
    }
  }

  /** The string form of a standard card names it: no two standard cards print alike. */
  lemma ToStringInjective(c: Card, d: Card)
    requires IsStandard(c) && IsStandard(d)
    requires ToString(c) == ToString(d)
    ensures c == d
  {
    RanksHaveNoSpace(c.rank);
    RanksHaveNoSpace(d.rank);
    SplitAtOf(c.rank, c.suit, d.rank, d.suit);
  }
}
