# Lunear Tarot: a verified model of the card-of-the-day core

This project models the Android tarot app "Lunear Tarot" in Dafny. Its centre is
`CardRepository`:

- a fixed list of `TarotCard` records;
- the card of the day, a two-state machine over a persisted three-key record in the
  "card_of_day" preferences store. If the stored date is today's and both other keys are
  present, the stored pick is returned and nothing is written. Otherwise a fresh card and
  orientation are drawn and all three keys are overwritten;
- `getCardById`, a first-match lookup that throws when no card matches;
- `getRandomCard`, a draw that does not touch the store.

The model proves:

- the cached and the stale branch;
- the lossless string round trips of the stored id, orientation and date;
- same-day idempotence of the id and the orientation.

It also proves that, with the card list as written, the *card* returned later the same day
can differ from the one drawn. That happens because ids 14 and 72 are carried by two
entries each, and the cached branch resolves the id by first match.

Around the repository, five smaller rule sets are modelled:

- the three-card spread picker (`SpreadScreen`);
- the seven-tap yes/no reveal (`YesOrNoScreen`);
- the orientation-driven text of the card detail screen and the share text built line by
  line (`CardDetailsScreen`, `shareCard`);
- the next-09:00 delay arithmetic and the enabled-gated work body of the daily
  notification worker;
- the settings store, whose absent keys read `true`.

Stateful parts are classes:

- `DayStore`, `SpreadState`, `YesOrNoState`, `Calendar`, `SettingsStore`;
- their methods state the new state, tied to pure step functions (`CardOfDayStep`,
  `PickStep`, `TapStep`, `ResetStep`, `SettleStep`, `NextNotification`).

Today's date, the clock and every random choice are parameters:

- `today` is a `LocalDate`;
- the clock is a `Clock`;
- a random choice is a `Draw(index, upright)` whose index lies inside the card list.

Files (one module each):

- `wrappers.dfy`: `Option`, `Result`.
- `conversions.dfy`: Kotlin `Int.toString`, `Boolean.toString`, `String.toBoolean`, zero-padded date fields.
- `catalog_data.dfy`: `TarotCard`, `CardOfDay`, the card list as written, first-match search, the corrected list.
- `card_repository.dfy`: the date key, the daily record, `getCardOfDay`, `getCardById`, `getRandomCard`.
- `card_details_screen.dfy`: the detail texts and the share text.
- `ui_text.dfy`: string-resource versus literal text.
- `spread_screen.dfy`, `yes_or_no_screen.dfy`, `daily_card_notification_worker.dfy`, `preferences_manager.dfy`.

The list differs from a 78-card deck with ids 1..78:

- The list holds 79 entries. It has ids 1-22, a second 14 (Ten of Wands), 24-72, a
  second 72 (The Devil again) and 73-78. No entry carries id 23.

One call site is read as its neighbours use it:

- `SpreadScreen.kt:332` passes the meanings list where a text is expected. The model takes the
  selected list, as the detail screen does.

## Model

| member | source | states |
|---|---|---|
| Catalog.CardAt | app/src/main/java/com/superapp/luneartarot/data/TarotCard.kt:40-978 | entry i of the list as written, with both description texts empty |
| Catalog.SourceCards | app/src/main/java/com/superapp/luneartarot/data/TarotCard.kt:40-978 | the card list as written has 79 entries, entry i carrying the id, name, subcategory, meanings, image name, element and answer of the i-th `TarotCard(...)`; both description texts are empty (see Left out) |
| Catalog.FirstIndexWhere | app/src/main/java/com/superapp/luneartarot/data/TarotCard.kt:993 | Kotlin `first { }`: the found position satisfies the test, no earlier one does, and nothing is found exactly when no element satisfies it |
| Catalog.FirstWithOwnId | app/src/main/java/com/superapp/luneartarot/data/TarotCard.kt:1008-1010 | with unique ids, the first entry carrying an entry's id is that entry |
| Catalog.SourceHasDuplicateIds | app/src/main/java/com/superapp/luneartarot/data/TarotCard.kt:186-187 | id 14 is carried by the Two of Pentacles and the Ten of Wands (line 295), id 72 by two different Devil entries (lines 883, 895); the ids are not unique |
| Catalog.SourceIdAt | app/src/main/java/com/superapp/luneartarot/data/TarotCard.kt:40-978 | entry i has id i+1, except 14 at position 22 and i from position 72 on |
| Catalog.SourceFirstMatches | app/src/main/java/com/superapp/luneartarot/data/TarotCard.kt:1008-1010 | the first match for id 14 is the Two of Pentacles (position 13) and for id 72 the Devil at line 883 (position 71) |
| Catalog.SourceMissesIds | app/src/main/java/com/superapp/luneartarot/data/TarotCard.kt:40-978 | no entry carries id 23 or id 0, so first-match search finds nothing for them |
| Catalog.SourceMisses | app/src/main/java/com/superapp/luneartarot/data/TarotCard.kt:40-978 | first-match search for id 23 or id 0 finds nothing |
| Catalog.IdAtFormula | app/src/main/java/com/superapp/luneartarot/data/TarotCard.kt:40-978 | the id column as written is i+1 at position i, except 14 at position 22 and i from position 72 on |
| Catalog.SourceIds | app/src/main/java/com/superapp/luneartarot/data/TarotCard.kt:40-978 | the id column of the list as written, entry by entry |
| Catalog.FirstIdMatch | app/src/main/java/com/superapp/luneartarot/data/TarotCard.kt:1008-1010 | first-match search by id depends only on the ids, in order |
| Catalog.SourceCardsIds | app/src/main/java/com/superapp/luneartarot/data/TarotCard.kt:1008-1010 | searching the list as written by id is searching its id column |
| Catalog.SourceFirstMatch | app/src/main/java/com/superapp/luneartarot/data/TarotCard.kt:1008-1010 | the first entry carrying id 14 is position 13, and the first carrying 72 is position 71 |
| Catalog.FirstIdIs | app/src/main/java/com/superapp/luneartarot/data/TarotCard.kt:1008-1010 | in the id column, 14 is first found at position 13 and 72 at position 71 |
| Catalog.DuplicateColumns | app/src/main/java/com/superapp/luneartarot/data/TarotCard.kt:186-896 | positions 13 and 22 both have id 14 and are named "Two of Pentacles" and "Ten of Wands"; positions 71 and 72 both have id 72, elements "N/A" and "Earth" |
| Catalog.DuplicateNames | app/src/main/java/com/superapp/luneartarot/data/TarotCard.kt:294-296 | the names at positions 13 and 22 are "Two of Pentacles" and "Ten of Wands" |
| Catalog.DuplicateElements | app/src/main/java/com/superapp/luneartarot/data/TarotCard.kt:882-895 | the elements at positions 71 and 72 are "N/A" and "Earth" |
| Catalog.Cards | app/src/main/java/com/superapp/luneartarot/data/TarotCard.kt:294-295 | the corrected list: 78 cards, the Ten of Wands with id 23, the stray Devil of line 883 dropped |
| Catalog.CardsIdsArePositions | app/src/main/java/com/superapp/luneartarot/data/TarotCard.kt:40-978 | in the corrected list, card i has id i+1 |
| Catalog.CardsIdsUnique | app/src/main/java/com/superapp/luneartarot/data/TarotCard.kt:1008-1010 | in the corrected list ids are unique and id k is first found at position k-1 for every k in 1..78 |
| Conversions.NatToString | app/src/main/java/com/superapp/luneartarot/data/TarotCard.kt:1001 | a printed id is a non-empty string of digits with no leading zero |
| Conversions.NatToStringRoundTrip | app/src/main/java/com/superapp/luneartarot/data/TarotCard.kt:1001 | reading the printed digits back gives the number |
| Conversions.IntToString | app/src/main/java/com/superapp/luneartarot/data/TarotCard.kt:993 | Kotlin `Int.toString()`: non-empty, starting with '-' exactly when the number is negative, and all digits otherwise |
| Conversions.IntToStringInjective | app/src/main/java/com/superapp/luneartarot/data/TarotCard.kt:993 | two ids print alike if and only if they are equal, so comparing `id.toString()` with the stored string compares ids |
| Conversions.PrintsTwentyThree | app/src/main/java/com/superapp/luneartarot/data/TarotCard.kt:993 | id 23 prints as "23" |
| Conversions.BooleanToString | app/src/main/java/com/superapp/luneartarot/data/TarotCard.kt:1002 | `Boolean.toString()`: the stored text is "true" or "false", and `toBoolean` reads the boolean back |
| Conversions.ToBoolean | app/src/main/java/com/superapp/luneartarot/data/TarotCard.kt:994 | `toBoolean` is true only for a four-letter string ("true" in any case) |
| Conversions.ToBooleanExamples | app/src/main/java/com/superapp/luneartarot/data/TarotCard.kt:994 | `toBoolean` ignores case and answers false for every other text, including "yes", "" and "true " |
| Conversions.Padded | app/src/main/java/com/superapp/luneartarot/data/TarotCard.kt:981 | a date field is all digits and at least as wide as its pattern letters |
| Conversions.PaddedRoundTrip | app/src/main/java/com/superapp/luneartarot/data/TarotCard.kt:981 | leading zeros of a padded field do not change its value |
| Conversions.PaddedWidth | app/src/main/java/com/superapp/luneartarot/data/TarotCard.kt:981 | a value below 10^width fills exactly `width` digits |
| Conversions.LeadingZerosIgnored | app/src/main/java/com/superapp/luneartarot/data/TarotCard.kt:981 | prefixed zeros do not change a decimal value |
| Conversions.NatToStringShort | app/src/main/java/com/superapp/luneartarot/data/TarotCard.kt:981 | a value below 10^width prints in at most `width` digits |
| Repository.FormatDate | app/src/main/java/com/superapp/luneartarot/data/TarotCard.kt:980-983 | the date key has the `yyyy-MM-dd` shape: digit fields separated by '-', 10 characters up to year 9999 |
| Repository.ParseFields | app/src/main/java/com/superapp/luneartarot/data/TarotCard.kt:981 | the three fields of `y-MM-dd` are read back from the end, whatever the year's width |
| Repository.DateRoundTrip | app/src/main/java/com/superapp/luneartarot/data/TarotCard.kt:980-983 | parsing the date key gives the date back |
| Repository.DateKeyInjective | app/src/main/java/com/superapp/luneartarot/data/TarotCard.kt:980-991 | the stored date equals today's key if and only if it was written on the same calendar day |
| Repository.IdTextFindsId | app/src/main/java/com/superapp/luneartarot/data/TarotCard.kt:993 | matching on the printed id finds the same entry as matching on the id |
| Repository.IsCached | app/src/main/java/com/superapp/luneartarot/data/TarotCard.kt:991 | the cached test: only a record stamped with today's key can be cached, a record missing the id or the orientation is stale, and so is a fresh store |
| Repository.CardOfDayStep | app/src/main/java/com/superapp/luneartarot/data/TarotCard.kt:985-1006 | one `getCardOfDay` call: afterwards the record is always a full record for today; the cached branch writes nothing; the stale branch returns the draw; only the cached branch can throw; a returned card is a listed card |
| Repository.StaleWriteReadsBack | app/src/main/java/com/superapp/luneartarot/data/TarotCard.kt:996-1004 | the stale branch leaves a record that is cached for today, returns the drawn pick, and the stored orientation and id read back to the drawn ones |
| Repository.SameDayIdempotent | app/src/main/java/com/superapp/luneartarot/data/TarotCard.kt:985-1006 | a second call on the same day writes nothing, succeeds exactly when the first did, returns the same id and orientation, and returns the first entry with that id |
| Repository.SameDayStableWithUniqueIds | app/src/main/java/com/superapp/luneartarot/data/TarotCard.kt:985-1006 | with unique ids the second call of a day returns exactly the first call's card and orientation |
| Repository.SourceSameDayCardChanges14 | app/src/main/java/com/superapp/luneartarot/data/TarotCard.kt:993 | with the list as written, drawing the Ten of Wands returns it, and the same-day cached call returns the Two of Pentacles |
| Repository.SourceSameDayCardChanges72 | app/src/main/java/com/superapp/luneartarot/data/TarotCard.kt:993 | with the list as written, drawing the Devil of line 895 returns it, and the same-day cached call returns the Devil of line 883 |
| Repository.DuplicateIdResolvesEarlier | app/src/main/java/com/superapp/luneartarot/data/TarotCard.kt:993-1004 | a drawn card whose id is first carried by an earlier entry comes back from the cache as that earlier entry, same orientation |
| Repository.SourceDuplicateResolvesEarlier | app/src/main/java/com/superapp/luneartarot/data/TarotCard.kt:993-1004 | both duplicated ids of the list as written make the cached result differ from the drawn one |
| Repository.CardsSameDayStable | app/src/main/java/com/superapp/luneartarot/data/TarotCard.kt:985-1006 | with the corrected list the card of the day never changes within a day |
| Repository.DayRollover | app/src/main/java/com/superapp/luneartarot/data/TarotCard.kt:991-1003 | a record written on another day is stale: the call returns the drawn pick and stamps today's date |
| Repository.WellFormedPreserved | app/src/main/java/com/superapp/luneartarot/data/TarotCard.kt:991-1004 | every call keeps the record either empty or a full record of one listed card, and on such a record the call always succeeds with a listed card |
| Repository.AbsentIdThrows | app/src/main/java/com/superapp/luneartarot/data/TarotCard.kt:993 | a cached record naming an id no entry carries makes the call throw |
| Repository.ForeignRecordThrows | app/src/main/java/com/superapp/luneartarot/data/TarotCard.kt:993 | with the list as written, a cached record naming "23" makes the call throw |
| Repository.DayStore.constructor | app/src/main/java/com/superapp/luneartarot/data/TarotCard.kt:16 | a fresh store has all three keys absent |
| Repository.CardRepository.constructor | app/src/main/java/com/superapp/luneartarot/data/TarotCard.kt:35 | the repository holds the card list and the "card_of_day" store it was given |
| Repository.CardRepository.GetAllCards | app/src/main/java/com/superapp/luneartarot/ui/screens/SpreadScreen.kt:48 | the list `getAllCards` serves to the two screens is the card list in order (assumed, see Left out) |
| Repository.CardRepository.GetCardOfDay | app/src/main/java/com/superapp/luneartarot/data/TarotCard.kt:985-1006 | result and new record are those of `CardOfDayStep`; the cached branch writes nothing, succeeds iff some entry prints as the stored id, and parses the stored orientation; the stale branch sets all three keys to today, the drawn id and orientation and returns exactly that pick |
| Repository.CardRepository.GetCardById | app/src/main/java/com/superapp/luneartarot/data/TarotCard.kt:1008-1010 | succeeds iff some entry has the id; then the result has that id and is the first such entry in list order |
| Repository.CardRepository.GetRandomCard | app/src/main/java/com/superapp/luneartarot/data/TarotCard.kt:1011-1016 | the card is a member of the list and the orientation is the drawn coin; no store is read or written |
| Repository.SourceGetCardByIdAbsent | app/src/main/java/com/superapp/luneartarot/data/TarotCard.kt:1008-1010 | with the list as written, `getCardById(23)` and `getCardById(0)` throw |
| Repository.SourceGetCardByIdDuplicated | app/src/main/java/com/superapp/luneartarot/data/TarotCard.kt:1008-1010 | with the list as written, id 14 finds the Two of Pentacles and id 72 the Devil of line 883 |
| Repository.GetCardByIdFinds | app/src/main/java/com/superapp/luneartarot/data/TarotCard.kt:1008-1010 | when the first match for an id is position k, `getCardById` returns entry k |
| Repository.CardsGetCardById | app/src/main/java/com/superapp/luneartarot/data/TarotCard.kt:1008-1010 | with the corrected list, an id is found iff it lies in 1..78, and then at position id-1 |
| CardDetailsScreen.Description | app/src/main/java/com/superapp/luneartarot/ui/screens/CardDetailsScreen.kt:41 | the upright description when upright, the reversed one otherwise |
| CardDetailsScreen.Meanings | app/src/main/java/com/superapp/luneartarot/ui/screens/CardDetailsScreen.kt:42 | the upright meanings when upright, the reversed ones otherwise |
| CardDetailsScreen.OrientationLabel | app/src/main/java/com/superapp/luneartarot/ui/screens/CardDetailsScreen.kt:77 | the label is "Upright" iff upright and "Reversed" iff not |
| CardDetailsScreen.Bullets | app/src/main/java/com/superapp/luneartarot/ui/screens/CardDetailsScreen.kt:144-146 | one "• m" line per meaning m, in list order |
| CardDetailsScreen.ShareLines | app/src/main/java/com/superapp/luneartarot/ui/screens/CardDetailsScreen.kt:137-149 | 8+n lines for n meanings |
| CardDetailsScreen.ShareLinesContent | app/src/main/java/com/superapp/luneartarot/ui/screens/CardDetailsScreen.kt:136-149 | the lines are, in order: heading, "name (orientation)", blank, the selected description, blank, "Key Meanings:", one bullet per meaning in list order, blank, "Shared from Lunear Tarot App" |
| CardDetailsScreen.JoinLines | app/src/main/java/com/superapp/luneartarot/ui/screens/CardDetailsScreen.kt:137-149 | the text of successive `appendLine` calls has at least one character, its line feed, per line |
| CardDetailsScreen.JoinLinesAppend | app/src/main/java/com/superapp/luneartarot/ui/screens/CardDetailsScreen.kt:137-149 | appending lines in two runs gives the text of appending them in one |
| CardDetailsScreen.ShareText | app/src/main/java/com/superapp/luneartarot/ui/screens/CardDetailsScreen.kt:137-149 | the share text ends with the footer line "Shared from Lunear Tarot App" and its line feed |
| CardDetailsScreen.AppendLine | app/src/main/java/com/superapp/luneartarot/ui/screens/CardDetailsScreen.kt:138 | one `appendLine` adds the line and a line feed |
| CardDetailsScreen.AppendLines | app/src/main/java/com/superapp/luneartarot/ui/screens/CardDetailsScreen.kt:138-143 | successive `appendLine` calls append the lines' joined text |
| CardDetailsScreen.BulletStep | app/src/main/java/com/superapp/luneartarot/ui/screens/CardDetailsScreen.kt:144-146 | each `forEach` step adds "• " + meaning and a line feed to the bullets' text |
| CardDetailsScreen.AppendBullets | app/src/main/java/com/superapp/luneartarot/ui/screens/CardDetailsScreen.kt:144-146 | the `forEach` loop appends the joined bullet lines of the meanings |
| CardDetailsScreen.ShareTextParts | app/src/main/java/com/superapp/luneartarot/ui/screens/CardDetailsScreen.kt:137-149 | the share text is the header's text, then the bullets' text, then the trailer's text |
| CardDetailsScreen.BuildShareText | app/src/main/java/com/superapp/luneartarot/ui/screens/CardDetailsScreen.kt:134-149 | the `buildString` block produces exactly the joined `ShareLines` |
| CardDetailsScreen.SplitLineThenRest | app/src/main/java/com/superapp/luneartarot/ui/screens/CardDetailsScreen.kt:137-149 | splitting a line-feed-free line and its terminator gives that line, then the split of the rest |
| CardDetailsScreen.JoinFrontIsJoin | app/src/main/java/com/superapp/luneartarot/ui/screens/CardDetailsScreen.kt:137-149 | joining from the front and from the back give the same text |
| CardDetailsScreen.SplitJoinFront | app/src/main/java/com/superapp/luneartarot/ui/screens/CardDetailsScreen.kt:137-149 | splitting front-joined line-feed-free lines gives them back |
| CardDetailsScreen.SplitJoinRoundTrip | app/src/main/java/com/superapp/luneartarot/ui/screens/CardDetailsScreen.kt:137-149 | splitting the joined text of line-feed-free lines gives the lines back |
| CardDetailsScreen.ConcatNoLineFeed | app/src/main/java/com/superapp/luneartarot/ui/screens/CardDetailsScreen.kt:139 | joining line-feed-free parts gives a line-feed-free line |
| CardDetailsScreen.ShareLinesNoLineFeed | app/src/main/java/com/superapp/luneartarot/ui/screens/CardDetailsScreen.kt:138-148 | when name, description and meanings hold no line feed, no share line does |
| CardDetailsScreen.ShareTextLines | app/src/main/java/com/superapp/luneartarot/ui/screens/CardDetailsScreen.kt:137-149 | the share text splits back into exactly its 8+n lines and ends with a line feed |
| SpreadScreen.InstructionText | app/src/main/java/com/superapp/luneartarot/ui/screens/SpreadScreen.kt:200-205 | 0 picks: first-card prompt; 1: second; 2: final; 3 or more: complete (each an if-and-only-if) |
| SpreadScreen.PositionLabel | app/src/main/java/com/superapp/luneartarot/ui/screens/SpreadScreen.kt:308-313 | index 0 past, 1 present, 2 future, any other the empty string (each an if-and-only-if) |
| SpreadScreen.OrientationText | app/src/main/java/com/superapp/luneartarot/ui/screens/SpreadScreen.kt:324 | the "upright" resource iff upright, "reversed" iff not |
| SpreadScreen.CenterIndex | app/src/main/java/com/superapp/luneartarot/ui/screens/SpreadScreen.kt:63 | `size / 2 - 1` is the last index of the first half: 2(r+1) <= size < 2(r+2), inside the list from two cards on, -1 below |
| SpreadScreen.PickedCardList | app/src/main/java/com/superapp/luneartarot/ui/screens/SpreadScreen.kt:253 | `pickedCards.map { it.card }` keeps order and length |
| SpreadScreen.Deck | app/src/main/java/com/superapp/luneartarot/ui/screens/SpreadScreen.kt:252-253 | a card is shown in the deck iff it is in the catalog and not among the picked cards |
| SpreadScreen.DeckBeforePicks | app/src/main/java/com/superapp/luneartarot/ui/screens/SpreadScreen.kt:252-253 | with no picks the deck is the whole catalog in order |
| SpreadScreen.IndexOf | app/src/main/java/com/superapp/luneartarot/ui/screens/SpreadScreen.kt:122 | Kotlin `indexOf`: -1 iff absent, otherwise the first position holding the card |
| SpreadScreen.PickStep | app/src/main/java/com/superapp/luneartarot/ui/screens/SpreadScreen.kt:118-120 | below three picks the pick is appended at the end, otherwise nothing changes |
| SpreadScreen.PicksKeepFirstThree | app/src/main/java/com/superapp/luneartarot/ui/screens/SpreadScreen.kt:112-120 | after any series of taps the spread is the first picks in tap order, at most three |
| SpreadScreen.SameCardTwice | app/src/main/java/com/superapp/luneartarot/ui/screens/SpreadScreen.kt:119-120 | the draw ignores earlier picks: from any spread with room for two more cards, two taps that draw alike append the same card twice |
| SpreadScreen.ExplanationRows | app/src/main/java/com/superapp/luneartarot/ui/screens/SpreadScreen.kt:307-335 | one row per pick in pick order, with its position label, name, orientation and orientation-selected meanings |
| SpreadScreen.CompletedSpreadRows | app/src/main/java/com/superapp/luneartarot/ui/screens/SpreadScreen.kt:307-335 | a full spread reads past, present, future; an upright card's row lists its upright meanings and a reversed card's row its reversed meanings |
| SpreadScreen.SpreadState.constructor | app/src/main/java/com/superapp/luneartarot/ui/screens/SpreadScreen.kt:47-51 | no picks, no ad, the catalog from `getAllCards` |
| SpreadScreen.SpreadState.PickCard | app/src/main/java/com/superapp/luneartarot/ui/screens/SpreadScreen.kt:55-59 | below three picks appends the repository's random pick, leaves earlier picks unchanged, raises the ad flag when the count reaches three, and scrolls to the pick's first position; at three changes nothing; at most three picks always |
| SpreadScreen.SpreadState.ScrollTargetIsPick | app/src/main/java/com/superapp/luneartarot/ui/screens/SpreadScreen.kt:122 | the scroll target is a position of the picked card, never -1 |
| SpreadScreen.SpreadState.AdClosed | app/src/main/java/com/superapp/luneartarot/ui/screens/SpreadScreen.kt:132-135 | closing the ad lowers the flag and keeps the picks |
| YesOrNoScreen.TapStep | app/src/main/java/com/superapp/luneartarot/ui/screens/YesOrNoScreen.kt:121-138 | with the answer shown a tap changes nothing; otherwise it presses the card and counts one, and draws card and orientation and reveals exactly when the count reaches seven |
| YesOrNoScreen.ResetStep | app/src/main/java/com/superapp/luneartarot/ui/screens/YesOrNoScreen.kt:204-209 | with the answer shown: no taps, no card, hidden, at rest, orientation kept; otherwise nothing changes |
| YesOrNoScreen.SettleStep | app/src/main/java/com/superapp/luneartarot/ui/screens/YesOrNoScreen.kt:216-221 | a pressed card returns to rest and nothing else changes |
| YesOrNoScreen.StepsKeepReachable | app/src/main/java/com/superapp/luneartarot/ui/screens/YesOrNoScreen.kt:133-137 | every handler keeps: at most seven taps, the answer shown iff seven taps iff a listed card is selected |
| YesOrNoScreen.SeventhTapReveals | app/src/main/java/com/superapp/luneartarot/ui/screens/YesOrNoScreen.kt:133-138 | fewer than seven taps only count; the seventh reveals the card and orientation drawn on that tap; later taps change nothing |
| YesOrNoScreen.AnsweredIgnoresTaps | app/src/main/java/com/superapp/luneartarot/ui/screens/YesOrNoScreen.kt:121 | with the answer shown taps change nothing |
| YesOrNoScreen.Title | app/src/main/java/com/superapp/luneartarot/ui/screens/YesOrNoScreen.kt:103-106 | the ask-question prompt before the reveal, the selected card's name after |
| YesOrNoScreen.AnswerWord | app/src/main/java/com/superapp/luneartarot/ui/screens/YesOrNoScreen.kt:183 | "yes" iff upright, "no" iff reversed |
| YesOrNoScreen.SevenEqualDraws | app/src/main/java/com/superapp/luneartarot/ui/screens/YesOrNoScreen.kt:133-138 | seven taps on a fresh screen that all draw alike reveal that card in that orientation |
| YesOrNoScreen.AnswerIgnoresCardField | app/src/main/java/com/superapp/luneartarot/ui/screens/YesOrNoScreen.kt:183 | seven taps drawing The Devil of line 883 reversed reveal that card, whose `answer` field is "yes", with the answer "no" |
| YesOrNoScreen.YesOrNoState.constructor | app/src/main/java/com/superapp/luneartarot/ui/screens/YesOrNoScreen.kt:40-55 | no taps, no card, hidden, upright, at rest |
| YesOrNoScreen.YesOrNoState.Tap | app/src/main/java/com/superapp/luneartarot/ui/screens/YesOrNoScreen.kt:61-62 | the new state is `TapStep` of the old, and the phone vibrates iff the back was tapped and vibration is enabled |
| YesOrNoScreen.YesOrNoState.Reset | app/src/main/java/com/superapp/luneartarot/ui/screens/YesOrNoScreen.kt:204-209 | the new state is `ResetStep` of the old |
| YesOrNoScreen.YesOrNoState.Settle | app/src/main/java/com/superapp/luneartarot/ui/screens/YesOrNoScreen.kt:216-221 | the new state is `SettleStep` of the old |
| NotificationWorker.NextNotification | app/src/main/java/com/superapp/luneartarot/workers/DailyCardNotificationWorker.kt:59-67 | 09:00:00 today before nine, tomorrow from nine on, with the millisecond field kept |
| NotificationWorker.DelayWithinOneDay | app/src/main/java/com/superapp/luneartarot/workers/DailyCardNotificationWorker.kt:58-68 | the delay to the target is strictly positive and at most one day, and exactly one day iff it is 09:00:00 sharp |
| NotificationWorker.Calendar.constructor | app/src/main/java/com/superapp/luneartarot/workers/DailyCardNotificationWorker.kt:59 | the calendar starts at the current time |
| NotificationWorker.Calendar.AddDays | app/src/main/java/com/superapp/luneartarot/workers/DailyCardNotificationWorker.kt:62 | moves the day and nothing else |
| NotificationWorker.Calendar.SetHour | app/src/main/java/com/superapp/luneartarot/workers/DailyCardNotificationWorker.kt:64 | sets the hour and nothing else |
| NotificationWorker.Calendar.SetMinute | app/src/main/java/com/superapp/luneartarot/workers/DailyCardNotificationWorker.kt:65 | sets the minute and nothing else |
| NotificationWorker.Calendar.SetSecond | app/src/main/java/com/superapp/luneartarot/workers/DailyCardNotificationWorker.kt:66 | sets the second and nothing else |
| NotificationWorker.Calendar.TimeInMillis | app/src/main/java/com/superapp/luneartarot/workers/DailyCardNotificationWorker.kt:68 | `timeInMillis` of valid fields lies inside the calendar's own day |
| NotificationWorker.Schedule | app/src/main/java/com/superapp/luneartarot/workers/DailyCardNotificationWorker.kt:52-83 | the request is daily, named "daily_card_notification", UPDATE policy, no network, delayed by target minus the first clock reading; that delay is positive and at most a day plus the gap between the two readings |
| NotificationWorker.DoWork | app/src/main/java/com/superapp/luneartarot/workers/DailyCardNotificationWorker.kt:30-45 | disabled: success, no notification, store untouched; enabled: the store changes as `getCardOfDay` does, success with the card's name notified, or failure when the cached lookup throws |
| Preferences.ReadFlag | app/src/main/java/com/superapp/luneartarot/data/local/PreferencesManager.kt:21-28 | an absent key reads true, a present key reads its value |
| Preferences.ReadAfterWrite | app/src/main/java/com/superapp/luneartarot/data/local/PreferencesManager.kt:30-31 | after writing a flag it reads the written value |
| Preferences.WriteKeepsOthers | app/src/main/java/com/superapp/luneartarot/data/local/PreferencesManager.kt:30-40 | writing one key leaves every other flag reading as before |
| Preferences.SettingsStore.constructor | app/src/main/java/com/superapp/luneartarot/data/local/PreferencesManager.kt:12 | a fresh store has no keys |
| Preferences.PreferencesManager.constructor | app/src/main/java/com/superapp/luneartarot/data/local/PreferencesManager.kt:14 | the manager reads and writes the "settings" store it was given |
| Preferences.PreferencesManager.IsNotificationEnabled | app/src/main/java/com/superapp/luneartarot/data/local/PreferencesManager.kt:21-22 | true iff the key is absent or holds true |
| Preferences.PreferencesManager.IsMusicEnabled | app/src/main/java/com/superapp/luneartarot/data/local/PreferencesManager.kt:24-25 | true iff the key is absent or holds true |
| Preferences.PreferencesManager.IsVibrationEnabled | app/src/main/java/com/superapp/luneartarot/data/local/PreferencesManager.kt:27-28 | true iff the key is absent or holds true |
| Preferences.PreferencesManager.SetNotificationEnabled | app/src/main/java/com/superapp/luneartarot/data/local/PreferencesManager.kt:30-32 | writes its own key only; it then reads the written value and the other two flags read as before |
| Preferences.PreferencesManager.SetMusicEnabled | app/src/main/java/com/superapp/luneartarot/data/local/PreferencesManager.kt:34-36 | writes its own key only; it then reads the written value and the other two flags read as before |
| Preferences.PreferencesManager.SetVibrationEnabled | app/src/main/java/com/superapp/luneartarot/data/local/PreferencesManager.kt:38-40 | writes its own key only; it then reads the written value and the other two flags read as before |
| Preferences.SettingsKeepDailyRecord | app/src/main/java/com/superapp/luneartarot/data/local/PreferencesManager.kt:30-40 | writing all three settings leaves the card-of-day record unchanged, and each flag then reads what was written to it |

## Left out

- Catalog.SourceCards: the entries' `uprightDescription` and `reversedDescription` are "" rather than the texts of TarotCard.kt:40-978, and nothing proved about the list as written speaks of them.
- Catalog.CardAt: the two long description texts of every entry are left empty, for proof cost. Names, subcategories, meanings, image names, elements and answers are transcribed.
- Randomness: `cards.random()` and `Random.nextBoolean()` are a `Draw` parameter. Only membership in the list is stated, not uniformity. A draw from an empty list, which throws, is excluded by `ValidDraw`; the list is never empty.
- Concurrency: DataStore, Flow and coroutines are not modelled. `getCardOfDay` reads the three keys in three separate reads (`TarotCard.kt:987-989`), and a write between them could combine keys of two records. The model reads one consistent record.
- Date formatting: `SimpleDateFormat`, `Calendar` and `Locale` internals are not modelled. Today's date is a `LocalDate`, printed with ASCII digits; locales with other digits are not modelled.
- Time zones and daylight saving: every day lasts exactly 24 hours, so `NotificationWorker.DelayWithinOneDay` says nothing about days that are 23 or 25 hours long.
- NotificationWorker.Schedule: `System.currentTimeMillis()` and the calendar are two readings. Only `currentTime <= Millis(now)` is assumed, and the bound on the delay carries their gap.
- NotificationWorker.Schedule: building `Constraints`, the request and `enqueueUniquePeriodicWork` are reduced to the request value. `cancel` and `showNotification`'s channel, intent and builder are left out.
- NotificationWorker.DoWork: only the notified card name is produced, not the notification resource text.
- Repository.CardRepository.GetAllCards: `getAllCards` is called at SpreadScreen.kt:48 and YesOrNoScreen.kt:135, and `CardRepository` (TarotCard.kt:35-1017) does not define it; it is taken to return the list in order.
- Compose rendering and animation are left out: the alpha and scale springs, the `tapCount / 7f` progress, `animateDpAsState` offsets and scroll arrows. `cardScale` keeps only its two values, at rest (1) and pressed (0.9), and the 100 ms delay before it settles is not modelled.
- Ads, media playback and vibration hardware are left out; vibration is only the returned flag.
- The bitmap, file and `FileProvider` parts of `shareCard` are left out; only the text is modelled.
- `MainActivity.kt`, `MainScreen.kt`, `SettingsScreen.kt`, `SpalshActivity.kt` and `SettingsViewModel.kt` are navigation and UI glue and are not part of this model. The "Card not found" fallback at `MainActivity.kt:195-204` is unreachable, because `getCardById` throws rather than returning null.

## Findings

| source | as written | input that shows it | evidently intended | confidence | as-written member | corrected member |
|---|---|---|---|---|---|---|
| app/src/main/java/com/superapp/luneartarot/data/TarotCard.kt:294-295 | the Ten of Wands carries id 14, already used by the Two of Pentacles (line 187), and no entry carries id 23 | a stale call draws position 22 (Ten of Wands); the cached call later that day returns the Two of Pentacles, and a getCardById(23) throws | id 23 for the Ten of Wands, so the card of the day is stable within a day | high (not executed) | Repository.SourceSameDayCardChanges14 | Repository.CardsSameDayStable |
| app/src/main/java/com/superapp/luneartarot/data/TarotCard.kt:882-895 | The Devil is listed twice with id 72, the two entries differing in image, element and answer; the list has 79 entries | a stale call draws position 72 (the Devil of line 895); the cached call later that day returns the Devil of line 883 | one Devil, 78 cards with ids 1 to 78 | high (not executed) | Repository.SourceSameDayCardChanges72 | Catalog.Cards |
