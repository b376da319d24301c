/**
 * `SpreadScreen`: the three-card spread. Tapping any card back in the deck draws a random
 * card from the repository and appends it while fewer than three are picked; reaching three
 * picks raises the ad flag, and closing the ad lowers it. The instruction, the position labels,
 * the initial scroll position and the deck shown are pure functions of the state.
 */
module SpreadScreen {
  import opened Wrappers
  import opened Catalog
  import opened UiText
  import opened Repository
  import CardDetailsScreen

  /** The most cards a spread holds. */
  const SpreadSize := 3

  /** The instruction above the deck, by the number of cards picked so far. */
  function InstructionText(pickedCount: nat): (t: Text)
    ensures t == Resource("pick_1_card") <==> pickedCount == 0
    ensures t == Resource("pick_2nd_card") <==> pickedCount == 1
    ensures t == Resource("pick_final_card") <==> pickedCount == 2
    ensures t == Resource("spread_complete") <==> pickedCount >= 3
  {
    if pickedCount == 0 then Resource("pick_1_card")
    else if pickedCount == 1 then Resource("pick_2nd_card")
    else if pickedCount == 2 then Resource("pick_final_card")
    else Resource("spread_complete")
  }

  /** The heading of the explanation row at `index`. */
  function PositionLabel(index: nat): (t: Text)
    ensures t == Resource("past") <==> index == 0
    ensures t == Resource("present") <==> index == 1
    ensures t == Resource("future") <==> index == 2
    ensures t == Plain("") <==> index >= 3
  {
    if index == 0 then Resource("past")
    else if index == 1 then Resource("present")
    else if index == 2 then Resource("future")
    else Plain("")
  }

  /** The orientation shown after the card's name in an explanation row. */
  function OrientationText(isUpright: bool): (t: Text)
    ensures t == Resource("upright") <==> isUpright
    ensures t == Resource("reversed") <==> !isUpright
  {
    if isUpright then Resource("upright") else Resource("reversed")
  }

  /**
   * The item the deck scrolls to first: `size / 2 - 1` in integer division (the size is never
   * negative, so truncating and Euclidean division agree). It is the last item of the first half.
   */
  function CenterIndex(size: nat): (r: int)
    ensures 2 * (r + 1) <= size < 2 * (r + 2)
    ensures size >= 2 ==> 0 <= r < size
    ensures size < 2 ==> r == -1
  {
    size / 2 - 1
  }

  /** `pickedCards.map { it.card }`. */
  function PickedCardList(picked: seq<CardOfDay>): (cards: seq<TarotCard>)
    ensures |cards| == |picked|
    ensures forall i :: 0 <= i < |picked| ==> cards[i] == picked[i].card
  {
    seq(|picked|, i requires 0 <= i < |picked| => picked[i].card)
  }

  /** The card backs shown: the catalog cards, in list order, that are not among the picked cards. */
  function {:induction false} Deck(allCards: seq<TarotCard>, picked: seq<CardOfDay>): (deck: seq<TarotCard>)
    ensures forall c :: c in deck <==> c in allCards && c !in PickedCardList(picked)
    ensures |deck| <= |allCards|
    decreases |allCards|
  {
    if allCards == [] then []
    else
      var rest := Deck(allCards[1..], picked);
      assert forall c :: c in allCards <==> c == allCards[0] || c in allCards[1..] by {
        assert allCards == [allCards[0]] + allCards[1..];
      }
      if allCards[0] in PickedCardList(picked) then rest else [allCards[0]] + rest
  }

  /** Before any pick, the whole catalog is shown. */
  lemma {:induction false} DeckBeforePicks(allCards: seq<TarotCard>)
    ensures Deck(allCards, []) == allCards
    decreases |allCards|
  {
    if allCards != [] {
      DeckBeforePicks(allCards[1..]);
      assert [allCards[0]] + allCards[1..] == allCards;
    }
  }

  function IsCard(card: TarotCard): TarotCard -> bool
  {
    (c: TarotCard) => c == card
  }

  /** Kotlin's `indexOf`: the first position holding `card`, or -1. */
  function IndexOf(cards: seq<TarotCard>, card: TarotCard): (r: int)
    ensures r == -1 <==> card !in cards
    ensures r != -1 ==> 0 <= r < |cards| && cards[r] == card && card !in cards[..r]
  {
    var found := FirstIndexWhere(cards, IsCard(card));
    if found.Some? then
      assert forall j :: 0 <= j < found.value ==> cards[j] != card;
      found.value
    else -1
  }

  /** One tap on a card back: the drawn pick is appended while fewer than three are picked. */
  function PickStep(picked: seq<CardOfDay>, pick: CardOfDay): (r: seq<CardOfDay>)
    ensures |picked| < SpreadSize ==> r == picked + [pick]
    ensures |picked| >= SpreadSize ==> r == picked
  {
    if |picked| < SpreadSize then picked + [pick] else picked
  }

  /** The picks after a series of taps, starting from `picked`. */
  function PicksFrom(picked: seq<CardOfDay>, picks: seq<CardOfDay>): seq<CardOfDay>
    decreases |picks|
  {
    if picks == [] then picked else PicksFrom(PickStep(picked, picks[0]), picks[1..])
  }

  function Min(a: int, b: int): int
  {
    if a <= b then a else b
  }

  /**
   * However many taps there are, the spread keeps the first picks in tap order and never
   * holds more than three cards.
   */
  lemma {:induction false} PicksKeepFirstThree(picked: seq<CardOfDay>, picks: seq<CardOfDay>)
    requires |picked| <= SpreadSize
    ensures PicksFrom(picked, picks) == (picked + picks)[..Min(|picked| + |picks|, SpreadSize)]
    ensures |PicksFrom(picked, picks)| <= SpreadSize
    decreases |picks|
  {
    if picks == [] {
      assert picked + picks == picked;
    } else if |picked| < SpreadSize {
      PicksKeepFirstThree(picked + [picks[0]], picks[1..]);
      assert picked + [picks[0]] + picks[1..] == picked + picks;
    } else {
      PicksKeepFirstThree(picked, picks[1..]);
      assert (picked + picks[1..])[..SpreadSize] == picked;
      assert (picked + picks)[..SpreadSize] == picked;
    }
  }

  /**
   * Nothing stops the random draw from returning a card already picked: from any spread with
   * room for two more cards, two taps that draw alike put the same card in twice.
   */
  lemma SameCardTwice(repo: CardRepository, picked: seq<CardOfDay>, draw: Draw)
    requires ValidDraw(repo.cards, draw) && |picked| < SpreadSize - 1
    ensures var p := repo.GetRandomCard(draw);
      PicksFrom(picked, [p, p]) == picked + [p, p]
  {
    var p := repo.GetRandomCard(draw);
    assert PickStep(picked, p) == picked + [p];
    assert PickStep(picked + [p], p) == picked + [p, p];
    assert [p, p][1..] == [p] && [p][1..] == [];
    assert PicksFrom(picked + [p], [p]) == PicksFrom(picked + [p, p], []);
  }

  /** One row of the spread explanation. */
  datatype ExplanationRow = ExplanationRow(position: Text, name: string, orientation: Text, meanings: seq<string>)

  /** `SpreadExplanationContent`: one row per picked card, in pick order. */
  function ExplanationRows(picked: seq<CardOfDay>): (rows: seq<ExplanationRow>)
    ensures |rows| == |picked|
    ensures forall i :: 0 <= i < |picked| ==>
      && rows[i].position == PositionLabel(i)
      && rows[i].name == picked[i].card.name
      && rows[i].orientation == OrientationText(picked[i].isUpright)
      && rows[i].meanings == CardDetailsScreen.Meanings(picked[i])
  {
    seq(|picked|, i requires 0 <= i < |picked| =>
      ExplanationRow(PositionLabel(i), picked[i].card.name, OrientationText(picked[i].isUpright),
                     CardDetailsScreen.Meanings(picked[i])))
  }

  /**
   * A completed spread reads past, present, future in pick order, each row showing the
   * upright meanings exactly when its card was drawn upright.
   */
  lemma CompletedSpreadRows(picked: seq<CardOfDay>)
    requires |picked| == SpreadSize
    ensures var rows := ExplanationRows(picked);
      && rows[0].position == Resource("past")
      && rows[1].position == Resource("present")
      && rows[2].position == Resource("future")
      && forall i :: 0 <= i < SpreadSize ==>
           (picked[i].isUpright ==> rows[i].meanings == picked[i].card.uprightMeanings)
           && (!picked[i].isUpright ==> rows[i].meanings == picked[i].card.reversedMeanings)
  {
  }

  /** The spread screen's state: the picks so far and the ad flag. */
  class SpreadState {
    const repo: CardRepository
    /** `remember { cardRepository.getAllCards() }`. */
    const allCards: seq<TarotCard>
    var pickedCards: seq<CardOfDay>
    var showAd: bool

    predicate Valid()
      reads this
    {
      && allCards == repo.cards
      && |pickedCards| <= SpreadSize
      && (forall i :: 0 <= i < |pickedCards| ==> pickedCards[i].card in allCards)
      && (showAd ==> |pickedCards| == SpreadSize)
    }

    constructor (repo: CardRepository)
      ensures Valid()
      ensures this.repo == repo && allCards == repo.GetAllCards()
      ensures pickedCards == [] && !showAd
    {
      this.repo := repo;
      allCards := repo.GetAllCards();
      pickedCards := [];
      showAd := false;
    }

    /**
     * `onCardPicked`, followed by the effect keyed on the pick count: below three picks the drawn
     * card is appended and the deck scrolls to its first position in the catalog; the third pick
     * raises the ad flag. With three picks the tap changes nothing.
     */
    method PickCard(draw: Draw) returns (scrollTo: Option<int>)
      requires Valid() && ValidDraw(repo.cards, draw)
      modifies this
      ensures Valid()
      ensures pickedCards == PickStep(old(pickedCards), repo.GetRandomCard(draw))
      ensures old(|pickedCards|) < SpreadSize ==>
        && pickedCards == old(pickedCards) + [repo.GetRandomCard(draw)]
        && showAd == (old(showAd) || |pickedCards| == SpreadSize)
        && scrollTo == Some(IndexOf(allCards, repo.cards[draw.index]))
      ensures old(|pickedCards|) >= SpreadSize ==> unchanged(this) && scrollTo == None
    {
      if |pickedCards| < SpreadSize {
        var randomCard := repo.GetRandomCard(draw);
        pickedCards := pickedCards + [randomCard];
        scrollTo := Some(IndexOf(allCards, randomCard.card));
        if |pickedCards| == SpreadSize {
          showAd := true;
        }
      } else {
        scrollTo := None;
      }
    }

    /** The scroll target of a pick is the picked card's own position, never -1. */
    lemma ScrollTargetIsPick(draw: Draw)
      requires Valid() && ValidDraw(repo.cards, draw)
      ensures var k := IndexOf(allCards, repo.cards[draw.index]);
        0 <= k <= draw.index && allCards[k] == repo.cards[draw.index]
    {
      var card := repo.cards[draw.index];
      assert card !in allCards[..IndexOf(allCards, card)];
    }

    /** `onAdClosed`: lowers the ad flag and keeps the picks. */
    method AdClosed()
      requires Valid()
      modifies this
      ensures Valid()
      ensures !showAd && pickedCards == old(pickedCards)
    {
      showAd := false;
    }
  }
}
