/**
 * `YesOrNoScreen`: the card back must be tapped seven times; the seventh tap draws a card and an
 * orientation and reveals the answer, "yes" exactly when the card is upright. "Ask a new question"
 * clears the taps and the card but keeps the last orientation. The press animation is reduced to
 * two scale states.
 */
module YesOrNoScreen {
  import opened Wrappers
  import opened Catalog
  import opened UiText
  import opened Repository

  /** Taps needed before the answer is revealed. */
  const TapsToReveal := 7

  /** `cardScale`: 1 at rest, 0.9 while pressed. */
  datatype Scale = Rest | Pressed

  /** The screen's remembered state. */
  datatype Snapshot = Snapshot(tapCount: int, selectedCard: Option<TarotCard>, showAnswer: bool, isUpright: bool, cardScale: Scale)

  /** The state when the screen is first composed. */
  const Initial := Snapshot(0, None, false, true, Rest)

  /** The states the handlers can reach: the answer is shown exactly at seven taps, and exactly when a catalog card is selected. */
  predicate Reachable(allCards: seq<TarotCard>, s: Snapshot)
  {
    && 0 <= s.tapCount <= TapsToReveal
    && (s.showAnswer <==> s.tapCount == TapsToReveal)
    && (s.showAnswer <==> s.selectedCard.Some?)
    && (s.selectedCard.Some? ==> s.selectedCard.value in allCards)
  }

  /**
   * One tap on the card back (handled only while the answer is hidden, since only then is the
   * back shown): press, count, and on reaching seven draw the card and orientation.
   */
  function TapStep(allCards: seq<TarotCard>, s: Snapshot, draw: Draw): (r: Snapshot)
    requires ValidDraw(allCards, draw)
    ensures s.showAnswer ==> r == s
    ensures !s.showAnswer ==> r.tapCount == s.tapCount + 1 && r.cardScale == Pressed
    ensures !s.showAnswer && r.tapCount >= TapsToReveal ==>
      r.showAnswer && r.selectedCard == Some(allCards[draw.index]) && r.isUpright == draw.upright
    ensures !s.showAnswer && r.tapCount < TapsToReveal ==>
      r.showAnswer == s.showAnswer && r.selectedCard == s.selectedCard && r.isUpright == s.isUpright
  {
    if s.showAnswer then s
    else
      var pressed := s.(cardScale := Pressed, tapCount := s.tapCount + 1);
      if pressed.tapCount >= TapsToReveal then
        pressed.(selectedCard := Some(allCards[draw.index]), isUpright := draw.upright, showAnswer := true)
      else pressed
  }

  /** "Ask a new question" (shown only with the answer): back to no taps, no card, at rest; the orientation stays. */
  function ResetStep(s: Snapshot): (r: Snapshot)
    ensures s.showAnswer ==> r == Snapshot(0, None, false, s.isUpright, Rest)
    ensures !s.showAnswer ==> r == s
  {
    if s.showAnswer then s.(tapCount := 0, selectedCard := None, showAnswer := false, cardScale := Rest) else s
  }

  /** The effect keyed on `cardScale`: a pressed card springs back to rest. */
  function SettleStep(s: Snapshot): (r: Snapshot)
    ensures r == s.(cardScale := Rest)
  {
    if s.cardScale == Pressed then s.(cardScale := Rest)
    else
      assert s.cardScale == Rest;
      s
  }

  /** Every handler keeps the state reachable. */
  lemma StepsKeepReachable(allCards: seq<TarotCard>, s: Snapshot, draw: Draw)
    requires Reachable(allCards, s) && ValidDraw(allCards, draw)
    ensures Reachable(allCards, TapStep(allCards, s, draw))
    ensures Reachable(allCards, ResetStep(s))
    ensures Reachable(allCards, SettleStep(s))
  {
  }

  /** The state after a series of taps. */
  function TapsFrom(allCards: seq<TarotCard>, s: Snapshot, draws: seq<Draw>): Snapshot
    requires forall i :: 0 <= i < |draws| ==> ValidDraw(allCards, draws[i])
    decreases |draws|
  {
    if draws == [] then s else TapsFrom(allCards, TapStep(allCards, s, draws[0]), draws[1..])
  }

  /**
   * From a fresh screen, fewer than seven taps only count; the seventh reveals the card drawn
   * on that tap; later taps change nothing.
   */
  lemma {:induction false} SeventhTapReveals(allCards: seq<TarotCard>, s: Snapshot, draws: seq<Draw>)
    requires forall i :: 0 <= i < |draws| ==> ValidDraw(allCards, draws[i])
    requires Reachable(allCards, s) && !s.showAnswer
    ensures var r := TapsFrom(allCards, s, draws);
      && Reachable(allCards, r)
      && (s.tapCount + |draws| < TapsToReveal ==>
            r.tapCount == s.tapCount + |draws| && !r.showAnswer && r.isUpright == s.isUpright)
      && (s.tapCount + |draws| >= TapsToReveal ==>
            var k := TapsToReveal - s.tapCount - 1;
            r.showAnswer && r.selectedCard == Some(allCards[draws[k].index]) && r.isUpright == draws[k].upright)
    decreases |draws|
  {
    if draws != [] {
      var next := TapStep(allCards, s, draws[0]);
      if next.showAnswer {
        AnsweredIgnoresTaps(allCards, next, draws[1..]);
      } else {
        SeventhTapReveals(allCards, next, draws[1..]);
        var k := TapsToReveal - s.tapCount - 1;
        if s.tapCount + |draws| >= TapsToReveal {
          assert draws[1..][k - 1] == draws[k];
        }
      }
    }
  }

  /** With the answer shown, taps change nothing (the card back is not on screen). */
  lemma {:induction false} AnsweredIgnoresTaps(allCards: seq<TarotCard>, s: Snapshot, draws: seq<Draw>)
    requires forall i :: 0 <= i < |draws| ==> ValidDraw(allCards, draws[i])
    requires s.showAnswer
    ensures TapsFrom(allCards, s, draws) == s
    decreases |draws|
  {
    if draws != [] {
      AnsweredIgnoresTaps(allCards, s, draws[1..]);
    }
  }

  /** The title: the ask-question prompt before the reveal, the selected card's name after. */
  function Title(s: Snapshot): (t: Text)
    ensures !s.showAnswer ==> t == Resource("ask_question")
    ensures s.showAnswer && s.selectedCard.Some? ==> t == Plain(s.selectedCard.value.name)
    ensures s.showAnswer && s.selectedCard.None? ==> t == Plain("")
  {
    if !s.showAnswer then Resource("ask_question")
    else if s.selectedCard.Some? then Plain(s.selectedCard.value.name)
    else Plain("")
  }

  /** The answer word: "yes" exactly when the drawn orientation is upright (the card's own `answer` field is not consulted). */
  function AnswerWord(isUpright: bool): (t: Text)
    ensures t == Resource("yes") <==> isUpright
    ensures t == Resource("no") <==> !isUpright
  {
    if isUpright then Resource("yes") else Resource("no")
  }

  /**
   * The answer can disagree with the card's own `answer` field: seven taps on a fresh screen
   * that draw The Devil as first listed, reversed, reveal that card, whose field says "yes",
   * with the answer "no".
   */
  lemma AnswerIgnoresCardField()
    ensures var draws := seq(TapsToReveal, _ => Draw(71, false));
      var r := TapsFrom(SourceCards(), Initial, draws);
      && Reachable(SourceCards(), r) && r.showAnswer
      && r.selectedCard == Some(SourceCards()[71])
      && r.selectedCard.value.answer == "yes"
      && AnswerWord(r.isUpright) == Resource("no")
  {
    SevenEqualDraws(SourceCards(), Draw(71, false));
    assert SourceCards()[71] == CardAt(71);
  }

  /** Seven taps on a fresh screen that all draw alike reveal that draw. */
  lemma SevenEqualDraws(allCards: seq<TarotCard>, draw: Draw)
    requires ValidDraw(allCards, draw)
    ensures var r := TapsFrom(allCards, Initial, seq(TapsToReveal, _ => draw));
      && Reachable(allCards, r) && r.showAnswer
      && r.selectedCard == Some(allCards[draw.index]) && r.isUpright == draw.upright
  {
    SeventhTapReveals(allCards, Initial, seq(TapsToReveal, _ => draw));
  }

  /** The yes/no screen's state, updated in place by its handlers. */
  class YesOrNoState {
    /** `cardRepository.getAllCards()`, read on every revealing tap. */
    const allCards: seq<TarotCard>
    var tapCount: int
    var selectedCard: Option<TarotCard>
    var showAnswer: bool
    var isUpright: bool
    var cardScale: Scale

    function State(): Snapshot
      reads this
    {
      Snapshot(tapCount, selectedCard, showAnswer, isUpright, cardScale)
    }

    predicate Valid()
      reads this
    {
      Reachable(allCards, State())
    }

    constructor (allCards: seq<TarotCard>)
      ensures Valid() && this.allCards == allCards && State() == Initial
    {
      this.allCards := allCards;
      tapCount := 0;
      selectedCard := None;
      showAnswer := false;
      isUpright := true;
      cardScale := Rest;
    }

    /** The tap handler; reports whether the phone vibrated, which it does only when vibration is enabled. */
    method Tap(draw: Draw, vibrationEnabled: bool) returns (vibrated: bool)
      requires Valid() && ValidDraw(allCards, draw)
      modifies this
      ensures Valid()
      ensures State() == TapStep(allCards, old(State()), draw)
      ensures vibrated <==> !old(showAnswer) && vibrationEnabled
    {
      if showAnswer {
        return false;
      }
      vibrated := vibrationEnabled;
      cardScale := Pressed;
      tapCount := tapCount + 1;
      if tapCount >= TapsToReveal {
        selectedCard := Some(allCards[draw.index]);
        isUpright := draw.upright;
        showAnswer := true;
      }
    }

    /** The "ask a new question" handler. */
    method Reset()
      requires Valid()
      modifies this
      ensures Valid()
      ensures State() == ResetStep(old(State()))
    {
      if showAnswer {
        tapCount := 0;
        selectedCard := None;
        showAnswer := false;
        cardScale := Rest;
      }
    }

    /** The effect on `cardScale` after its delay. */
    method Settle()
      requires Valid()
      modifies this
      ensures Valid()
      ensures State() == SettleStep(old(State()))
    {
      if cardScale == Pressed {
        cardScale := Rest;
      }
    }
  }
}
