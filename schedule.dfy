/**
 * Day arithmetic. Anki keeps a graduated card's `due` as a day index; a card
 * that graduates today is due `graduating interval` days from today, and a
 * card's id is its creation time in milliseconds since the Unix epoch.
 */
module Schedule {

  const MillisPerSecond := 1000
  const SecondsPerDay := 86400

  /**
   * `today_day_index = due - graduating_interval`: the day index of today,
   * read off a card that has just graduated.
   */
  function TodayDayIndex(graduatedDue: int, graduatingInterval: int): int
  {
    graduatedDue - graduatingInterval
  }

  /** Anki's rule for a card that graduates on day `today`. */
  function GraduatedDue(today: int, graduatingInterval: int): int
  {
    today + graduatingInterval
  }

  /** Subtracting the graduating interval undoes graduation: today's index comes back. */
  lemma TodayUndoesGraduation(today: int, graduatingInterval: int)
    ensures TodayDayIndex(GraduatedDue(today, graduatingInterval), graduatingInterval) == today
  {
  }

  /**
   * Whole days between the card's creation (its id, floored to seconds) and
   * now, as `timedelta.days` gives them: rounded down, also when negative.
   */
  function DaysSinceCreation(nowSeconds: int, cardId: int): (days: int)
    ensures days * SecondsPerDay <= nowSeconds - cardId / MillisPerSecond < (days + 1) * SecondsPerDay
  {
    (nowSeconds - cardId / MillisPerSecond) / SecondsPerDay
  }

  /**
   * `delay_day_index = today_day_index - days_since_card_creation + delay_day`:
   * `delay` days after the day index on which the card was created.
   */
  function DelayDayIndex(today: int, daysSinceCreation: int, delay: int): int
  {
    today - daysSinceCreation + delay
  }

  /** The new due day of a card, from its id and the delay drawn for it. */
  function CardDue(today: int, nowSeconds: int, cardId: int, delay: int): int
  {
    DelayDayIndex(today, DaysSinceCreation(nowSeconds, cardId), delay)
  }

  /** A card created no later than another has been around at least as many days. */
  lemma OlderCardMoreDays(nowSeconds: int, olderId: int, newerId: int)
    requires olderId <= newerId
    ensures DaysSinceCreation(nowSeconds, newerId) <= DaysSinceCreation(nowSeconds, olderId)
  {
    var olderSecond, newerSecond := olderId / MillisPerSecond, newerId / MillisPerSecond;
    assert olderSecond * MillisPerSecond <= olderId;
    assert newerId < (newerSecond + 1) * MillisPerSecond;
    assert olderSecond <= newerSecond;
  }

  /**
   * A card that is `d` whole days old (its creation second lies between `d`
   * and `d + 1` days before now) is due `delay` days after the day index
   * `today - d`, the day on which it was created.
   */
  lemma CardDueByAge(today: int, nowSeconds: int, cardId: int, delay: int, d: int)
    requires d * SecondsPerDay <= nowSeconds - cardId / MillisPerSecond < (d + 1) * SecondsPerDay
    ensures CardDue(today, nowSeconds, cardId, delay) == today - d + delay
  {
    var days := DaysSinceCreation(nowSeconds, cardId);
    if days != d {
      assert false;
    }
  }

  /**
   * With equal delays, an older card is due no later than a newer one: the
   * delay counts from each card's own creation day.
   */
  lemma OlderCardDueNoLater(today: int, nowSeconds: int, olderId: int, newerId: int, delay: int)
    requires olderId <= newerId
    ensures CardDue(today, nowSeconds, olderId, delay) <= CardDue(today, nowSeconds, newerId, delay)
  {
    OlderCardMoreDays(nowSeconds, olderId, newerId);
  }
}
