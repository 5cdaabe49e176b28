/**
 * The record filter: an inclusive date range, the split by platform, the choice
 * of the text column to search and the boolean query, applied per platform.
 * The query engine is not modelled; each platform's compiled query is a
 * predicate on text.
 */
module RecordFilter {
  import opened Seqs
  import opened Posts

  /** The text columns a query can be run against. */
  datatype Column = Text | TranslatedText

  function Field(p: Post, c: Column): string {
    match c
    case Text => p.text
    case TranslatedText => p.translatedText
  }

  /** The column searched on Telegram: the translation when the language is "english". */
  function SearchColumn(lang: string): (c: Column)
    ensures c == TranslatedText <==> lang == "english"
  {
    if lang == "english" then TranslatedText else Text
  }

  predicate InRange(p: Post, start: Date, end: Date) {
    DateLe(start, DayOf(p)) && DateLe(DayOf(p), end)
  }

  /** Rows whose day lies in `[start, end]`, both ends included, in their original order. */
  function FilterByDate(rows: seq<Post>, start: Date, end: Date): (r: seq<Post>)
    ensures IsSubseq(r, rows)
    ensures forall p :: p in r <==> p in rows && InRange(p, start, end)
    ensures forall p :: multiset(r)[p] == if InRange(p, start, end) then multiset(rows)[p] else 0
  {
    KeepCharacterized(rows, (p: Post) => InRange(p, start, end));
    Keep(rows, (p: Post) => InRange(p, start, end))
  }

  /** Rows whose `plateforme` is exactly `name`, in their original order. */
  function PlatformRows(rows: seq<Post>, name: string): (r: seq<Post>)
    ensures IsSubseq(r, rows)
    ensures forall p :: p in r <==> p in rows && p.platform == name
    ensures forall p :: multiset(r)[p] == if p.platform == name then multiset(rows)[p] else 0
  {
    KeepCharacterized(rows, (p: Post) => p.platform == name);
    Keep(rows, (p: Post) => p.platform == name)
  }

  /** Telegram rows on which the query holds, tested on the column the language picks. */
  function TelegramHits(rows: seq<Post>, lang: string, query: string -> bool): (r: seq<Post>)
    ensures IsSubseq(r, rows)
    ensures forall p: Post ::
              p in r <==> p in rows && query(if lang == "english" then p.translatedText else p.text)
    ensures forall p: Post ::
              var searched := if lang == "english" then p.translatedText else p.text;
              multiset(r)[p] == if query(searched) then multiset(rows)[p] else 0
  {
    var column := SearchColumn(lang);
    assert forall p: Post :: Field(p, column) == if lang == "english" then p.translatedText else p.text;
    KeepCharacterized(rows, (p: Post) => query(Field(p, column)));
    Keep(rows, (p: Post) => query(Field(p, column)))
  }

  /** Twitter rows on which the query holds, always tested on `text`. */
  function TwitterHits(rows: seq<Post>, query: string -> bool): (r: seq<Post>)
    ensures IsSubseq(r, rows)
    ensures forall p :: p in r <==> p in rows && query(p.text)
    ensures forall p :: multiset(r)[p] == if query(p.text) then multiset(rows)[p] else 0
  {
    KeepCharacterized(rows, (p: Post) => query(p.text));
    Keep(rows, (p: Post) => query(p.text))
  }

  /** A row whose platform is neither "Telegram" nor "Twitter" reaches neither partition. */
  lemma OtherPlatformsDropped(rows: seq<Post>, p: Post)
    requires p.platform != TelegramName && p.platform != TwitterName
    ensures p !in PlatformRows(rows, TelegramName) && p !in PlatformRows(rows, TwitterName)
  {
  }

  /** The two partitions share no row. */
  lemma PartitionsDisjoint(rows: seq<Post>)
    ensures forall p :: p in PlatformRows(rows, TelegramName) ==> p !in PlatformRows(rows, TwitterName)
  {
  }

  /** Filtering again by the same query keeps every row: the result is a fixed point. */
  lemma QueryFilterIsFixedPoint(rows: seq<Post>, lang: string, query: string -> bool)
    ensures TelegramHits(TelegramHits(rows, lang, query), lang, query) == TelegramHits(rows, lang, query)
    ensures TwitterHits(TwitterHits(rows, query), query) == TwitterHits(rows, query)
  {
    var column := SearchColumn(lang);
    KeepIdempotent(rows, (p: Post) => query(Field(p, column)));
    KeepIdempotent(rows, (p: Post) => query(p.text));
  }

  /**
   * `pd.concat([telegram, twitter])`: splitting the concatenation by platform
   * again gives back the Telegram hits and the Twitter hits, each in its order,
   * so the result lists every Telegram hit before every Twitter hit.
   */
  lemma ConcatSplitsByPlatform(telegram: seq<Post>, twitter: seq<Post>)
    requires forall p :: p in telegram ==> p.platform == TelegramName
    requires forall p :: p in twitter ==> p.platform == TwitterName
    ensures PlatformRows(telegram + twitter, TelegramName) == telegram
    ensures PlatformRows(telegram + twitter, TwitterName) == twitter
  {
    var isTelegram := (p: Post) => p.platform == TelegramName;
    var isTwitter := (p: Post) => p.platform == TwitterName;
    KeepConcat(telegram, twitter, isTelegram);
    KeepConcat(telegram, twitter, isTwitter);
    KeepAll(telegram, isTelegram);
    KeepAll(twitter, isTwitter);
    KeepNone(twitter, isTelegram);
    KeepNone(telegram, isTwitter);
  }
}
