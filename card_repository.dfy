/**
 * `CardRepository`: the card of the day, cached for one calendar day in the
 * "card_of_day" preferences store under three string keys, plus the stateless
 * lookups `getCardById` and `getRandomCard`.
 *
 * "Today" is a parameter (the local date), and the random choice of
 * `cards.random()` and `Random.nextBoolean()` is an injected `Draw`.
 */
module Repository {
  import opened Wrappers
  import opened Conversions
  import opened Catalog

  /** Name of the preferences store holding the daily record. */
  const StoreName := "card_of_day"
  /** The three keys of the daily record. */
  const CardOfDayKey := "card_of_day"
  const CardOrientationKey := "card_orientation"
  const DateKey := "date"

  /** The exception Kotlin's `first { }` throws when nothing matches. */
  datatype Error = NoSuchElement

  /** The outcome of one random draw: a position in the card list and a coin. */
  datatype Draw = Draw(index: nat, upright: bool)

  /** A draw the random source can produce for this list: a position inside it. */
  predicate ValidDraw(cards: seq<TarotCard>, d: Draw)
  {
    d.index < |cards|
  }

  // ---------------------------------------------------------------- the date key

  datatype LocalDate = LocalDate(year: int, month: int, day: int)

  predicate ValidDate(d: LocalDate)
  {
    1 <= d.year && 1 <= d.month <= 12 && 1 <= d.day <= 31
  }

  /** `getCurrentDate`: the local date in the pattern `yyyy-MM-dd` (ASCII digits). */
  function FormatDate(d: LocalDate): (s: string)
    requires ValidDate(d)
    ensures |s| >= 10 && s[|s| - 6] == '-' && s[|s| - 3] == '-'
    ensures d.year <= 9999 ==> |s| == 10 && s[4] == '-' && s[7] == '-'
    ensures AllDigits(s[..|s| - 6]) && AllDigits(s[|s| - 5..|s| - 3]) && AllDigits(s[|s| - 2..])
  {
    PaddedWidth(d.month, 2);
    PaddedWidth(d.day, 2);
    if d.year <= 9999 then PaddedWidth(d.year, 4); DatePattern(d)
    else DatePattern(d)
  }

  function DatePattern(d: LocalDate): string
    requires ValidDate(d)
  {
    Padded(d.year, 4) + "-" + Padded(d.month, 2) + "-" + Padded(d.day, 2)
  }

  /** Reads the three fields back from the end of a formatted date. */
  function ParseDate(s: string): LocalDate
    requires |s| >= 6
  {
    LocalDate(DecimalValue(s[..|s| - 6]), DecimalValue(s[|s| - 5..|s| - 3]), DecimalValue(s[|s| - 2..]))
  }

  lemma DateRoundTrip(d: LocalDate)
    requires ValidDate(d)
    ensures ParseDate(FormatDate(d)) == d
  {
    var y, m, dd := Padded(d.year, 4), Padded(d.month, 2), Padded(d.day, 2);
    PaddedWidth(d.month, 2);
    PaddedWidth(d.day, 2);
    assert FormatDate(d) == y + "-" + m + "-" + dd;
    ParseFields(y, m, dd);
    PaddedRoundTrip(d.year, 4);
    PaddedRoundTrip(d.month, 2);
    PaddedRoundTrip(d.day, 2);
  }

  /** The three fields of `y-mm-dd` are read back from the end whatever their contents. */
  lemma ParseFields(y: string, m: string, dd: string)
    requires |m| == 2 && |dd| == 2
    ensures ParseDate(y + "-" + m + "-" + dd) == LocalDate(DecimalValue(y), DecimalValue(m), DecimalValue(dd))
  {
    var s := y + "-" + m + "-" + dd;
    var n := |y|;
    assert |s| == n + 6;
    assert s[..n] == y by {
      forall k | 0 <= k < n ensures s[k] == y[k] { }
    }
    assert s[n + 1..n + 3] == m by {
      forall k | 0 <= k < 2 ensures s[n + 1 + k] == m[k] { }
    }
    assert s[n + 4..] == dd by {
      forall k | 0 <= k < 2 ensures s[n + 4 + k] == dd[k] { }
    }
  }

  /** The stored date equals today's key exactly when it was written on the same calendar day. */
  lemma DateKeyInjective(d1: LocalDate, d2: LocalDate)
    requires ValidDate(d1) && ValidDate(d2)
    ensures FormatDate(d1) == FormatDate(d2) <==> d1 == d2
  {
    DateRoundTrip(d1);
    DateRoundTrip(d2);
  }

  // ---------------------------------------------------------------- the daily record

  /** The three keys of the "card_of_day" store; `None` is an absent key. */
  datatype DayRecord = DayRecord(date: Option<string>, cardId: Option<string>, orientation: Option<string>)

  const EmptyRecord := DayRecord(None, None, None)

  /** The cached branch: the stored date is today's and both other keys are present. */
  predicate IsCached(rec: DayRecord, today: string): (c: bool)
    ensures c ==> rec.date == Some(today)
    ensures rec.cardId.None? || rec.orientation.None? ==> !c
    ensures rec == EmptyRecord ==> !c
  {
    rec.date == Some(today) && rec.cardId.Some? && rec.orientation.Some?
  }

  /** The test `it.id.toString() == storedCardId`. */
  function HasIdText(text: string): TarotCard -> bool
  {
    (c: TarotCard) => IntToString(c.id) == text
  }

  /** Matching on the printed id finds the same entry as matching on the id. */
  lemma IdTextFindsId(cards: seq<TarotCard>, id: int)
    ensures FirstIndexWhere(cards, HasIdText(IntToString(id))) == FirstIndexWhere(cards, HasId(id))
  {
    forall c: TarotCard ensures HasIdText(IntToString(id))(c) == HasId(id)(c) {
      IntToStringInjective(c.id, id);
    }
    var r := FirstIndexWhere(cards, HasId(id));
    if r.Some? {
      FirstIndexIs(cards, HasIdText(IntToString(id)), r.value);
    }
  }

  /** What one `getCardOfDay` call returns and leaves in the store. */
  datatype DayOutcome = DayOutcome(result: Result<CardOfDay, Error>, record: DayRecord)

  /**
   * `getCardOfDay` as a function of the stored record, today's key and the draw:
   * the cached branch resolves the stored id by first match and parses the stored
   * orientation; the stale branch returns the drawn pick and overwrites all three keys.
   */
  function CardOfDayStep(cards: seq<TarotCard>, rec: DayRecord, today: string, draw: Draw): (o: DayOutcome)
    requires ValidDraw(cards, draw)
    ensures IsCached(o.record, today)
    ensures IsCached(rec, today) ==> o.record == rec
    ensures !IsCached(rec, today) ==> o.result == Ok(CardOfDay(cards[draw.index], draw.upright))
    ensures o.result.Err? ==> IsCached(rec, today)
    ensures o.result.Ok? ==> o.result.value.card in cards
  {
    if IsCached(rec, today) then
      var found := FirstIndexWhere(cards, HasIdText(rec.cardId.value));
      var result := if found.Some? then Ok(CardOfDay(cards[found.value], ToBoolean(rec.orientation.value)))
                    else Err(NoSuchElement);
      DayOutcome(result, rec)
    else
      var card := cards[draw.index];
      DayOutcome(Ok(CardOfDay(card, draw.upright)),
                 DayRecord(Some(today), Some(IntToString(card.id)), Some(BooleanToString(draw.upright))))
  }

  /** The record as this code writes it: either never written, or all three keys from one pick of `cards`. */
  predicate WellFormed(cards: seq<TarotCard>, rec: DayRecord)
  {
    rec == EmptyRecord
    || (rec.date.Some? && rec.cardId.Some? && rec.orientation.Some?
        && (exists i :: 0 <= i < |cards| && rec.cardId.value == IntToString(cards[i].id))
        && (rec.orientation.value == "true" || rec.orientation.value == "false"))
  }

  /** The stale branch writes back exactly what it returns: reading the new record gives the same id and orientation. */
  lemma {:induction false} StaleWriteReadsBack(cards: seq<TarotCard>, rec: DayRecord, today: string, draw: Draw)
    requires ValidDraw(cards, draw) && !IsCached(rec, today)
    ensures var o := CardOfDayStep(cards, rec, today, draw);
      && IsCached(o.record, today)
      && o.result == Ok(CardOfDay(cards[draw.index], draw.upright))
      && ToBoolean(o.record.orientation.value) == draw.upright
      && FirstIndexWhere(cards, HasIdText(o.record.cardId.value)) == FirstIndexWhere(cards, HasId(cards[draw.index].id))
  {
    IdTextFindsId(cards, cards[draw.index].id);
  }

  /**
   * Same-day idempotence: a second call on the same day leaves the record as the first call
   * left it, succeeds exactly when the first did, and returns the same id and orientation;
   * the card it returns is the first entry in list order with that id.
   */
  lemma SameDayIdempotent(cards: seq<TarotCard>, rec: DayRecord, today: string, d1: Draw, d2: Draw)
    requires ValidDraw(cards, d1) && ValidDraw(cards, d2)
    ensures var o1 := CardOfDayStep(cards, rec, today, d1);
            var o2 := CardOfDayStep(cards, o1.record, today, d2);
      && o2.record == o1.record
      && (o2.result.Ok? <==> o1.result.Ok?)
      && (o1.result.Ok? ==>
            && o2.result.value.card.id == o1.result.value.card.id
            && o2.result.value.isUpright == o1.result.value.isUpright
            && FirstIndexWhere(cards, HasId(o1.result.value.card.id)).Some?
            && o2.result.value.card == cards[FirstIndexWhere(cards, HasId(o1.result.value.card.id)).value])
  {
    var o1 := CardOfDayStep(cards, rec, today, d1);
    if IsCached(rec, today) {
      if o1.result.Ok? {
        var k := FirstIndexWhere(cards, HasIdText(rec.cardId.value)).value;
        assert o1.result.value.card == cards[k];
        FirstIndexIs(cards, HasId(cards[k].id), k) by {
          forall j | 0 <= j < k ensures !HasId(cards[k].id)(cards[j]) {
            assert !HasIdText(rec.cardId.value)(cards[j]);
          }
        }
      }
    } else {
      StaleWriteReadsBack(cards, rec, today, d1);
      assert HasId(cards[d1.index].id)(cards[d1.index]);
    }
  }

  /** With unique ids, the second call of the day returns exactly the first call's result. */
  lemma SameDayStableWithUniqueIds(cards: seq<TarotCard>, rec: DayRecord, today: string, d1: Draw, d2: Draw)
    requires ValidDraw(cards, d1) && ValidDraw(cards, d2) && UniqueIds(cards)
    ensures var o1 := CardOfDayStep(cards, rec, today, d1);
      CardOfDayStep(cards, o1.record, today, d2).result == o1.result
  {
    var o1 := CardOfDayStep(cards, rec, today, d1);
    SameDayIdempotent(cards, rec, today, d1, d2);
    if o1.result.Ok? && !IsCached(rec, today) {
      FirstWithOwnId(cards, d1.index);
    }
  }

  /**
   * With the catalog as written, the card of the day can change within a day: drawing the
   * Ten of Wands (id 14, line 295) returns it, and the cached call later that day returns
   * the Two of Pentacles, the earlier entry with the same id.
   */
  lemma SourceSameDayCardChanges14(today: string, upright: bool, later: Draw)
    requires ValidDraw(SourceCards(), later)
    ensures var o1 := CardOfDayStep(SourceCards(), EmptyRecord, today, Draw(22, upright));
            var o2 := CardOfDayStep(SourceCards(), o1.record, today, later);
      && o1.result == Ok(CardOfDay(SourceCards()[22], upright))
      && o2.result == Ok(CardOfDay(SourceCards()[13], upright))
      && o1.result != o2.result
  {
    SourceDuplicateResolvesEarlier(today, upright, later, 22, 13);
  }

  /** The same for The Devil: the entry at line 895 is drawn, the one at line 883 comes back from the cache. */
  lemma SourceSameDayCardChanges72(today: string, upright: bool, later: Draw)
    requires ValidDraw(SourceCards(), later)
    ensures var o1 := CardOfDayStep(SourceCards(), EmptyRecord, today, Draw(72, upright));
            var o2 := CardOfDayStep(SourceCards(), o1.record, today, later);
      && o1.result == Ok(CardOfDay(SourceCards()[72], upright))
      && o2.result == Ok(CardOfDay(SourceCards()[71], upright))
      && o1.result != o2.result
  {
    SourceDuplicateResolvesEarlier(today, upright, later, 72, 71);
  }

  /** A drawn card whose id an earlier, different entry also carries comes back from the cache as that earlier entry. */
  lemma DuplicateIdResolvesEarlier(cards: seq<TarotCard>, today: string, upright: bool, later: Draw, drawn: nat, first: nat)
    requires ValidDraw(cards, later) && drawn < |cards| && first < |cards|
    requires FirstIndexWhere(cards, HasId(cards[drawn].id)) == Some(first)
    ensures var o1 := CardOfDayStep(cards, EmptyRecord, today, Draw(drawn, upright));
            var o2 := CardOfDayStep(cards, o1.record, today, later);
      && o1.result == Ok(CardOfDay(cards[drawn], upright))
      && o2.result == Ok(CardOfDay(cards[first], upright))
  {
    var id := cards[drawn].id;
    var o1 := CardOfDayStep(cards, EmptyRecord, today, Draw(drawn, upright));
    assert o1.record == DayRecord(Some(today), Some(IntToString(id)), Some(BooleanToString(upright)));
    IdTextFindsId(cards, id);
  }

  lemma SourceDuplicateResolvesEarlier(today: string, upright: bool, later: Draw, drawn: nat, first: nat)
    requires ValidDraw(SourceCards(), later)
    requires (drawn, first) == (22, 13) || (drawn, first) == (72, 71)
    ensures var o1 := CardOfDayStep(SourceCards(), EmptyRecord, today, Draw(drawn, upright));
            var o2 := CardOfDayStep(SourceCards(), o1.record, today, later);
      && o1.result == Ok(CardOfDay(SourceCards()[drawn], upright))
      && o2.result == Ok(CardOfDay(SourceCards()[first], upright))
      && o1.result != o2.result
  {
    SourceHasDuplicateIds();
    SourceFirstMatches();
    DuplicateIdResolvesEarlier(SourceCards(), today, upright, later, drawn, first);
  }

  /** With the corrected catalog, the card of the day never changes within a day. */
  lemma CardsSameDayStable(rec: DayRecord, today: string, d1: Draw, d2: Draw)
    requires ValidDraw(Cards(), d1) && ValidDraw(Cards(), d2)
    ensures var o1 := CardOfDayStep(Cards(), rec, today, d1);
      CardOfDayStep(Cards(), o1.record, today, d2).result == o1.result
  {
    CardsIdsUnique();
    SameDayStableWithUniqueIds(Cards(), rec, today, d1, d2);
  }

  /** Day rollover: a record written on another calendar day is stale, so the call draws afresh and stamps today. */
  lemma DayRollover(cards: seq<TarotCard>, rec: DayRecord, written: LocalDate, today: LocalDate, draw: Draw)
    requires ValidDraw(cards, draw) && ValidDate(written) && ValidDate(today) && written != today
    requires rec.date == Some(FormatDate(written))
    ensures var o := CardOfDayStep(cards, rec, FormatDate(today), draw);
      && o.record.date == Some(FormatDate(today))
      && o.record != rec
      && o.result == Ok(CardOfDay(cards[draw.index], draw.upright))
  {
    DateKeyInjective(written, today);
  }

  /** Every call keeps the record well formed, and on a well-formed record the cached lookup never throws. */
  lemma WellFormedPreserved(cards: seq<TarotCard>, rec: DayRecord, today: string, draw: Draw)
    requires ValidDraw(cards, draw) && WellFormed(cards, rec)
    ensures var o := CardOfDayStep(cards, rec, today, draw);
      WellFormed(cards, o.record) && o.result.Ok? && o.result.value.card in cards
  {
    if IsCached(rec, today) {
      var i :| 0 <= i < |cards| && rec.cardId.value == IntToString(cards[i].id);
      assert HasIdText(rec.cardId.value)(cards[i]);
    } else {
      var o := CardOfDayStep(cards, rec, today, draw);
      assert o.record.cardId.value == IntToString(cards[draw.index].id);
    }
  }

  /** A cached record naming an id that no entry carries makes the cached lookup throw. */
  lemma AbsentIdThrows(cards: seq<TarotCard>, id: int, today: string, orientation: string, draw: Draw)
    requires ValidDraw(cards, draw) && FirstIndexWhere(cards, HasId(id)) == None
    ensures CardOfDayStep(cards, DayRecord(Some(today), Some(IntToString(id)), Some(orientation)), today, draw).result
            == Err(NoSuchElement)
  {
    IdTextFindsId(cards, id);
  }

  /** A record the stale branch can never have written with the catalog as written (id "23"): its cached lookup throws. */
  lemma ForeignRecordThrows(today: string)
    ensures CardOfDayStep(SourceCards(), DayRecord(Some(today), Some("23"), Some("true")), today, Draw(0, true)).result
            == Err(NoSuchElement)
  {
    SourceMissesIds();
    PrintsTwentyThree();
    AbsentIdThrows(SourceCards(), 23, today, "true", Draw(0, true));
  }

  // ---------------------------------------------------------------- the store and the repository

  /** The "card_of_day" preferences store. */
  class DayStore {
    var date: Option<string>
    var cardId: Option<string>
    var orientation: Option<string>

    function Record(): DayRecord
      reads this
    {
      DayRecord(date, cardId, orientation)
    }

    /** A fresh installation: no key has been written. */
    constructor ()
      ensures Record() == EmptyRecord
    {
      date, cardId, orientation := None, None, None;
    }
  }

  class CardRepository {
    /** The fixed card list. */
    const cards: seq<TarotCard>
    /** The store shared by every repository built on the same application context. */
    const store: DayStore

    constructor (cards: seq<TarotCard>, store: DayStore)
      ensures this.cards == cards && this.store == store
    {
      this.cards := cards;
      this.store := store;
    }

    /**
     * `getAllCards`, called by the spread and yes/no screens; `CardRepository` itself does not
     * define it, so it is taken to return the card list in list order.
     */
    function GetAllCards(): (all: seq<TarotCard>)
      ensures all == cards
    {
      cards
    }

    /**
     * `getCardOfDay`: reads the three keys; on the cached branch returns the stored pick and writes
     * nothing; otherwise draws and overwrites all three keys in one edit.
     */
    method GetCardOfDay(today: LocalDate, draw: Draw) returns (r: Result<CardOfDay, Error>)
      requires ValidDate(today) && ValidDraw(cards, draw)
      modifies store
      ensures var o := CardOfDayStep(cards, old(store.Record()), FormatDate(today), draw);
        r == o.result && store.Record() == o.record
      ensures IsCached(old(store.Record()), FormatDate(today)) ==> unchanged(store)
      ensures IsCached(old(store.Record()), FormatDate(today)) ==>
        (r.Ok? <==> exists i :: 0 <= i < |cards| && IntToString(cards[i].id) == old(store.cardId).value)
      ensures IsCached(old(store.Record()), FormatDate(today)) && r.Ok? ==>
        r.value.isUpright == ToBoolean(old(store.orientation).value)
      ensures !IsCached(old(store.Record()), FormatDate(today)) ==>
        && store.date == Some(FormatDate(today))
        && store.cardId == Some(IntToString(cards[draw.index].id))
        && store.orientation == Some(BooleanToString(draw.upright))
        && r == Ok(CardOfDay(cards[draw.index], draw.upright))
    {
      var todayKey := FormatDate(today);
      // Three separate reads of the store, as in the source.
      var storedDate := store.date;
      var storedCardId := store.cardId;
      var storedOrientation := store.orientation;

      if storedDate == Some(todayKey) && storedCardId.Some? && storedOrientation.Some? {
        var found := FirstIndexWhere(cards, HasIdText(storedCardId.value));
        if found.Some? {
          r := Ok(CardOfDay(cards[found.value], ToBoolean(storedOrientation.value)));
        } else {
          r := Err(NoSuchElement);
        }
      } else {
        var randomCard := cards[draw.index];
        var isUpright := draw.upright;
        store.date, store.cardId, store.orientation :=
          Some(todayKey), Some(IntToString(randomCard.id)), Some(BooleanToString(isUpright));
        r := Ok(CardOfDay(randomCard, isUpright));
      }
    }

    /** `getCardById`: the first card in list order with this id; throws when there is none. */
    function GetCardById(id: int): (r: Result<TarotCard, Error>)
      ensures r.Ok? <==> exists i :: 0 <= i < |cards| && cards[i].id == id
      ensures r.Ok? ==> r.value.id == id
      ensures r.Ok? ==> exists i :: 0 <= i < |cards| && cards[i] == r.value
                                   && forall j :: 0 <= j < i ==> cards[j].id != id
    {
      var found := FirstIndexWhere(cards, HasId(id));
      if found.Some? then Ok(cards[found.value]) else Err(NoSuchElement)
    }

    /** `getRandomCard`: a card of the list and a coin, read from the draw; the store is not touched. */
    function GetRandomCard(draw: Draw): (r: CardOfDay)
      requires ValidDraw(cards, draw)
      ensures r.card in cards && r.isUpright == draw.upright
    {
      CardOfDay(cards[draw.index], draw.upright)
    }
  }

  /** With the catalog as written, ids 23 and 0 are not found: `getCardById` throws. */
  lemma SourceGetCardByIdAbsent(repo: CardRepository)
    requires repo.cards == SourceCards()
    ensures repo.GetCardById(23) == Err(NoSuchElement) && repo.GetCardById(0) == Err(NoSuchElement)
  {
    SourceMissesIds();
  }

  /** With the catalog as written, id 14 finds the Two of Pentacles and id 72 the first Devil. */
  lemma SourceGetCardByIdDuplicated(repo: CardRepository)
    requires repo.cards == SourceCards()
    ensures repo.GetCardById(14) == Ok(SourceCards()[13]) && repo.GetCardById(72) == Ok(SourceCards()[71])
  {
    SourceFirstMatches();
    GetCardByIdFinds(repo, 14, 13);
    GetCardByIdFinds(repo, 72, 71);
  }

  lemma GetCardByIdFinds(repo: CardRepository, id: int, k: nat)
    requires FirstIndexWhere(repo.cards, HasId(id)) == Some(k)
    ensures repo.GetCardById(id) == Ok(repo.cards[k])
  {
  }

  /** With the corrected catalog, every id from 1 to 78 finds its own card and nothing else is found. */
  lemma CardsGetCardById(repo: CardRepository, id: int)
    requires repo.cards == Cards()
    ensures repo.GetCardById(id).Ok? <==> 1 <= id <= 78
    ensures 1 <= id <= 78 ==> repo.GetCardById(id) == Ok(Cards()[id - 1])
  {
    CardsIdsUnique();
    CardsIdsArePositions();
  }
}
