/**
 * `DailyCardNotificationWorker`: `schedule` computes the delay to the next 09:00 with a
 * calendar changed field by field and enqueues a daily periodic request under one unique name;
 * `doWork` shows the card of the day only when notifications are enabled.
 *
 * Local time is a count of days plus the time of day, with every day exactly as long as
 * `MsPerDay` (no time zones and no daylight-saving changes).
 */
module NotificationWorker {
  import opened Wrappers
  import opened Catalog
  import opened Repository
  import Preferences

  const MsPerSecond := 1000
  const MsPerMinute := 60 * MsPerSecond
  const MsPerHour := 60 * MsPerMinute
  const MsPerDay := 24 * MsPerHour

  /** The hour of the daily notification. */
  const NotificationHour := 9

  const WorkName := "daily_card_notification"

  /** A local date and time: a day number and the fields of that day. */
  datatype Clock = Clock(day: int, hour: int, minute: int, second: int, milli: int)

  predicate ValidClock(c: Clock)
  {
    0 <= c.hour < 24 && 0 <= c.minute < 60 && 0 <= c.second < 60 && 0 <= c.milli < 1000
  }

  /** Milliseconds since day 0 at midnight. */
  function Millis(c: Clock): int
  {
    c.day * MsPerDay + c.hour * MsPerHour + c.minute * MsPerMinute + c.second * MsPerSecond + c.milli
  }

  /** The moment `schedule` aims at: 09:00:00 today before nine, tomorrow from nine on; the millisecond field is never reset. */
  function NextNotification(now: Clock): (t: Clock)
    ensures t.hour == NotificationHour && t.minute == 0 && t.second == 0 && t.milli == now.milli
    ensures now.hour >= NotificationHour ==> t.day == now.day + 1
    ensures now.hour < NotificationHour ==> t.day == now.day
  {
    Clock(if now.hour >= NotificationHour then now.day + 1 else now.day, NotificationHour, 0, 0, now.milli)
  }

  /**
   * Without a gap between the two clock readings the delay is strictly positive and at most
   * one day, and it is exactly one day only at 09:00:00 sharp.
   */
  lemma {:induction false} DelayWithinOneDay(now: Clock)
    requires ValidClock(now)
    ensures var d := Millis(NextNotification(now)) - Millis(now);
      && 0 < d <= MsPerDay
      && (d == MsPerDay <==> now.hour == NotificationHour && now.minute == 0 && now.second == 0)
  {
    var t := NextNotification(now);
    var within := now.hour * MsPerHour + now.minute * MsPerMinute + now.second * MsPerSecond;
    assert within <= now.hour * MsPerHour + 59 * MsPerMinute + 59 * MsPerSecond;
    assert Millis(t) - Millis(now) == (t.day - now.day) * MsPerDay + NotificationHour * MsPerHour - within;
    if now.hour >= NotificationHour {
      assert within >= NotificationHour * MsPerHour;
    } else {
      assert within <= (NotificationHour - 1) * MsPerHour + 59 * MsPerMinute + 59 * MsPerSecond;
    }
  }

  /** `java.util.Calendar`, reduced to the fields `schedule` reads and sets. */
  class Calendar {
    var day: int
    var hour: int
    var minute: int
    var second: int
    var milli: int

    function Time(): Clock
      reads this
    {
      Clock(day, hour, minute, second, milli)
    }

    /** `Calendar.getInstance()`: the current local time. */
    constructor (now: Clock)
      ensures Time() == now
    {
      day, hour, minute, second, milli := now.day, now.hour, now.minute, now.second, now.milli;
    }

    /** `add(DAY_OF_YEAR, n)`, which rolls over into the next year. */
    method AddDays(n: int)
      modifies this
      ensures Time() == old(Time()).(day := old(day) + n)
    {
      day := day + n;
    }

    method SetHour(h: int)
      modifies this
      ensures Time() == old(Time()).(hour := h)
    {
      hour := h;
    }

    method SetMinute(m: int)
      modifies this
      ensures Time() == old(Time()).(minute := m)
    {
      minute := m;
    }

    method SetSecond(s: int)
      modifies this
      ensures Time() == old(Time()).(second := s)
    {
      second := s;
    }

    /** `timeInMillis`: for valid fields, a reading inside the calendar's own day. */
    function TimeInMillis(): (t: int)
      reads this
      ensures ValidClock(Time()) ==> day * MsPerDay <= t < (day + 1) * MsPerDay
    {
      Millis(Time())
    }
  }

  datatype ExistingWorkPolicy = Keep | Replace | Update
  datatype NetworkType = NotRequired | Connected

  /** The periodic request `schedule` builds. */
  datatype PeriodicWork = PeriodicWork(name: string, periodDays: nat, initialDelayMs: int,
                                       policy: ExistingWorkPolicy, network: NetworkType)

  /**
   * `schedule`: `currentTime` is read first and the calendar a moment later (`now`). The request
   * repeats daily under `WorkName`, updating any request already queued under that name.
   */
  method Schedule(currentTime: int, now: Clock) returns (request: PeriodicWork)
    requires ValidClock(now)
    ensures request == PeriodicWork(WorkName, 1, Millis(NextNotification(now)) - currentTime, Update, NotRequired)
    ensures currentTime <= Millis(now) ==>
      0 < request.initialDelayMs <= MsPerDay + (Millis(now) - currentTime)
  {
    var calendar := new Calendar(now);
    if calendar.hour >= NotificationHour {
      calendar.AddDays(1);
    }
    calendar.SetHour(NotificationHour);
    calendar.SetMinute(0);
    calendar.SetSecond(0);
    assert calendar.Time() == NextNotification(now);
    var initialDelay := calendar.TimeInMillis() - currentTime;
    request := PeriodicWork(WorkName, 1, initialDelay, Update, NotRequired);
    DelayWithinOneDay(now);
  }

  datatype WorkResult = Success | Failure

  /**
   * `doWork`: with notifications enabled, computes the card of the day and notifies its name;
   * the exception of a stored id no card has turns into failure. With notifications disabled
   * nothing is read from or written to the card-of-day store.
   */
  method DoWork(preferences: Preferences.PreferencesManager, repo: CardRepository, today: LocalDate, draw: Draw)
    returns (result: WorkResult, notified: Option<string>)
    requires ValidDate(today) && ValidDraw(repo.cards, draw)
    modifies repo.store
    ensures !preferences.IsNotificationEnabled() ==> unchanged(repo.store) && result == Success && notified == None
    ensures preferences.IsNotificationEnabled() ==>
      var o := CardOfDayStep(repo.cards, old(repo.store.Record()), FormatDate(today), draw);
      && repo.store.Record() == o.record
      && (o.result.Ok? ==> result == Success && notified == Some(o.result.value.card.name))
      && (o.result.Err? ==> result == Failure && notified == None)
  {
    if preferences.IsNotificationEnabled() {
      var cardOfDay := repo.GetCardOfDay(today, draw);
      if cardOfDay.Ok? {
        notified := Some(cardOfDay.value.card.name);
        result := Success;
      } else {
        notified := None;
        result := Failure;
      }
    } else {
      notified := None;
      result := Success;
    }
  }
}
