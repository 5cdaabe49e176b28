/** One row of the posts table and the calendar dates it is filtered on. */
module Posts {

  /** A calendar date; dates compare by year, then month, then day. */
  datatype Date = Date(year: int, month: int, day: int)

  predicate DateLe(a: Date, b: Date) {
    a.year < b.year
    || (a.year == b.year && a.month < b.month)
    || (a.year == b.year && a.month == b.month && a.day <= b.day)
  }

  /** The `date` column after `pd.to_datetime`: a calendar date and a time of day. */
  datatype Timestamp = Timestamp(calendarDate: Date, secondOfDay: nat)

  /**
   * A post, Telegram message or tweet. `platform` holds the `plateforme` column
   * verbatim, so values other than "Telegram" and "Twitter" can occur.
   */
  datatype Post = Post(
    messageId: int,
    userId: int,
    userName: string,
    platform: string,
    date: Timestamp,
    text: string,
    translatedText: string,
    views: int,
    engagements: int,
    share: int,
    likes: int,
    comments: int)

  const TelegramName: string := "Telegram"
  const TwitterName: string := "Twitter"

  /** The `datetime` column after `.dt.date`: the time of day is dropped. */
  function DayOf(p: Post): Date {
    p.date.calendarDate
  }

  predicate NonNegativeCounts(p: Post) {
    p.views >= 0 && p.engagements >= 0
  }

  /** Date comparison is a total order, so a date range is an interval. */
  lemma DateLeIsTotalOrder(a: Date, b: Date, c: Date)
    ensures DateLe(a, a)
    ensures DateLe(a, b) && DateLe(b, c) ==> DateLe(a, c)
    ensures DateLe(a, b) && DateLe(b, a) ==> a == b
    ensures DateLe(a, b) || DateLe(b, a)
  {
  }
}
