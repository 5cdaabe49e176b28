/**
 * The search page's data pipeline: filter the posts by date, split them by
 * platform, run each platform's query, total the figures and build the two
 * ranked feeds. Widgets, charts and data loading are not modelled: the table,
 * the chosen dates, the language and the two compiled queries are parameters.
 */
module Homepage {
  import opened Seqs
  import opened Posts
  import opened RecordFilter
  import opened Metrics
  import opened Ranking

  /** Everything the page displays, per platform. */
  datatype Dashboard = Dashboard(
    telegramHits: seq<Post>,
    twitterHits: seq<Post>,
    combined: seq<Post>,
    telegramTotals: Totals,
    twitterTotals: Totals,
    telegramFigures: Figures,
    twitterFigures: Figures,
    telegramRanked: seq<Post>,
    twitterRanked: seq<Post>,
    telegramFeed: seq<Card>,
    twitterFeed: seq<Card>)

  /** A row of the table that lies in the date range and belongs to the platform. */
  predicate InScope(df: seq<Post>, p: Post, start: Date, end: Date, platform: string) {
    p in df && InRange(p, start, end) && p.platform == platform
  }

  /** `rows` holds exactly the table's rows in the date range that belong to the platform. */
  ghost predicate ExactlyInScope(rows: seq<Post>, df: seq<Post>, dateRange: seq<Date>, name: string)
    requires |dateRange| == 2
  {
    forall p :: p in rows <==> InScope(df, p, dateRange[0], dateRange[1], name)
  }

  /** The table has no row in the date range that belongs to the platform. */
  ghost predicate NoneInScope(df: seq<Post>, dateRange: seq<Date>, name: string)
    requires |dateRange| == 2
  {
    forall p :: p in df ==> !InScope(df, p, dateRange[0], dateRange[1], name)
  }

  /**
   * `hits` holds exactly the in-scope Telegram rows on which the query holds,
   * searched in `translated_text` for "english" and in `text` otherwise.
   */
  ghost predicate TelegramMatches(hits: seq<Post>, df: seq<Post>, dateRange: seq<Date>, lang: string,
                                  query: string -> bool)
    requires |dateRange| == 2
  {
    forall p :: p in hits <==>
      InScope(df, p, dateRange[0], dateRange[1], TelegramName)
      && query(if lang == "english" then p.translatedText else p.text)
  }

  /** `hits` holds exactly the in-scope Twitter rows on whose `text` the query holds. */
  ghost predicate TwitterMatches(hits: seq<Post>, df: seq<Post>, dateRange: seq<Date>, query: string -> bool)
    requires |dateRange| == 2
  {
    forall p :: p in hits <==> InScope(df, p, dateRange[0], dateRange[1], TwitterName) && query(p.text)
  }

  /** Bounds that make each displayed percentage a figure between 0% and 100%. */
  predicate FiguresWithinTotals(f: Figures, rows: seq<Post>) {
    && 0 <= f.posts.num <= f.posts.den
    && 0 <= f.channels.num <= f.channels.den
    && ((forall p :: p in rows ==> NonNegativeCounts(p)) ==>
          && 0 <= f.views.num <= f.views.den
          && 0 <= f.engagements.num <= f.engagements.den)
  }

  /** The intermediate tables of the filtering section of the page. */
  datatype Selection = Selection(
    telegramRows: seq<Post>,
    twitterRows: seq<Post>,
    telegramHits: seq<Post>,
    twitterHits: seq<Post>,
    combined: seq<Post>)

  /** A platform's rows of the date range: the rows its totals are taken over. */
  function RowsInRange(df: seq<Post>, dateRange: seq<Date>, name: string): seq<Post>
    requires |dateRange| == 2
  {
    PlatformRows(FilterByDate(df, dateRange[0], dateRange[1]), name)
  }

  /**
   * A platform's rows of the date range are exactly the table's in-scope rows,
   * in the table's order, and their post total is zero exactly when the table
   * has no in-scope row.
   */
  lemma RowsInRangeAreInScope(df: seq<Post>, dateRange: seq<Date>, name: string)
    requires |dateRange| == 2
    ensures var rows := RowsInRange(df, dateRange, name);
      && IsSubseq(rows, df)
      && ExactlyInScope(rows, df, dateRange, name)
      && (TotalsOf(rows).posts == 0 <==> NoneInScope(df, dateRange, name))
  {
    var inRange := FilterByDate(df, dateRange[0], dateRange[1]);
    var rows := PlatformRows(inRange, name);
    SubseqTrans(rows, inRange, df);
    if rows != [] {
      assert rows[0] in rows;
    }
  }

  /** The Telegram hits are the in-scope Telegram rows the query accepts on the chosen column. */
  lemma TelegramHitsInScope(df: seq<Post>, dateRange: seq<Date>, lang: string, query: string -> bool)
    requires |dateRange| == 2
    ensures var hits := TelegramHits(RowsInRange(df, dateRange, TelegramName), lang, query);
      && IsSubseq(hits, df)
      && TelegramMatches(hits, df, dateRange, lang, query)
  {
    var rows := RowsInRange(df, dateRange, TelegramName);
    RowsInRangeAreInScope(df, dateRange, TelegramName);
    SubseqTrans(TelegramHits(rows, lang, query), rows, df);
  }

  /** The Twitter hits are the in-scope Twitter rows the query accepts on `text`. */
  lemma TwitterHitsInScope(df: seq<Post>, dateRange: seq<Date>, query: string -> bool)
    requires |dateRange| == 2
    ensures var hits := TwitterHits(RowsInRange(df, dateRange, TwitterName), query);
      && IsSubseq(hits, df)
      && TwitterMatches(hits, df, dateRange, query)
  {
    var rows := RowsInRange(df, dateRange, TwitterName);
    RowsInRangeAreInScope(df, dateRange, TwitterName);
    SubseqTrans(TwitterHits(rows, query), rows, df);
  }

  /**
   * The filtering section: pick the column to search, keep the rows of the date
   * range, split them by platform, run each platform's query and concatenate.
   */
  method FilterPosts(df: seq<Post>, dateRange: seq<Date>, lang: string,
                     telegramQuery: string -> bool, twitterQuery: string -> bool)
    returns (s: Selection)
    requires |dateRange| == 2
    ensures s.telegramRows == RowsInRange(df, dateRange, TelegramName)
    ensures s.twitterRows == RowsInRange(df, dateRange, TwitterName)
    ensures s.telegramHits == TelegramHits(s.telegramRows, lang, telegramQuery)
    ensures s.twitterHits == TwitterHits(s.twitterRows, twitterQuery)
    ensures IsSubseq(s.telegramHits, s.telegramRows) && IsSubseq(s.twitterHits, s.twitterRows)
    ensures IsSubseq(s.telegramRows, df) && IsSubseq(s.twitterRows, df)
    ensures IsSubseq(s.telegramHits, df) && IsSubseq(s.twitterHits, df)
    ensures ExactlyInScope(s.telegramRows, df, dateRange, TelegramName)
    ensures ExactlyInScope(s.twitterRows, df, dateRange, TwitterName)
    ensures TelegramMatches(s.telegramHits, df, dateRange, lang, telegramQuery)
    ensures TwitterMatches(s.twitterHits, df, dateRange, twitterQuery)
    ensures s.combined == s.telegramHits + s.twitterHits
    ensures PlatformRows(s.combined, TelegramName) == s.telegramHits
    ensures PlatformRows(s.combined, TwitterName) == s.twitterHits
  {
    var rows := FilterByDate(df, dateRange[0], dateRange[1]);

    var twitterRows := PlatformRows(rows, TwitterName);
    var telegramRows := PlatformRows(rows, TelegramName);
    assert telegramRows == RowsInRange(df, dateRange, TelegramName);
    assert twitterRows == RowsInRange(df, dateRange, TwitterName);

    var telegramHits := TelegramHits(telegramRows, lang, telegramQuery);
    var twitterHits := TwitterHits(twitterRows, twitterQuery);

    RowsInRangeAreInScope(df, dateRange, TelegramName);
    RowsInRangeAreInScope(df, dateRange, TwitterName);
    TelegramHitsInScope(df, dateRange, lang, telegramQuery);
    TwitterHitsInScope(df, dateRange, twitterQuery);
    ConcatSplitsByPlatform(telegramHits, twitterHits);
    s := Selection(telegramRows, twitterRows, telegramHits, twitterHits, telegramHits + twitterHits);
  }

  /**
   * A platform's key figures: its totals over all its rows in range and the
   * filtered-over-total pairs of the four percentages.
   */
  method KeyFigures(df: seq<Post>, platformRows: seq<Post>, hits: seq<Post>)
    returns (totals: Totals, figures: Figures)
    requires IsSubseq(hits, platformRows) && IsSubseq(platformRows, df)
    ensures totals == TotalsOf(platformRows) && figures == FiguresOf(hits, platformRows)
    ensures figures.posts.den == totals.posts && figures.channels.den == totals.channels
    ensures figures.views.den == totals.views && figures.engagements.den == totals.engagements
    ensures totals.posts == 0 <==> platformRows == []
    ensures totals.channels == 0 <==> platformRows == []
    ensures FiguresWithinTotals(figures, df)
  {
    totals := TotalsOf(platformRows);
    figures := FiguresOf(hits, platformRows);
    SubseqMembers(platformRows, df);
    FiguresBounded(hits, platformRows);
  }

  /**
   * `main` from the date filter to the feeds. The date widget must have
   * returned both ends of the range.
   */
  method Run(df: seq<Post>, dateRange: seq<Date>, lang: string,
             telegramQuery: string -> bool, twitterQuery: string -> bool)
    returns (d: Dashboard)
    requires |dateRange| == 2
    ensures d.telegramHits == TelegramHits(RowsInRange(df, dateRange, TelegramName), lang, telegramQuery)
    ensures d.twitterHits == TwitterHits(RowsInRange(df, dateRange, TwitterName), twitterQuery)
    ensures d.telegramTotals == TotalsOf(RowsInRange(df, dateRange, TelegramName))
    ensures d.twitterTotals == TotalsOf(RowsInRange(df, dateRange, TwitterName))
    ensures d.telegramFigures == FiguresOf(d.telegramHits, RowsInRange(df, dateRange, TelegramName))
    ensures d.twitterFigures == FiguresOf(d.twitterHits, RowsInRange(df, dateRange, TwitterName))
    ensures TelegramMatches(d.telegramHits, df, dateRange, lang, telegramQuery)
    ensures TwitterMatches(d.twitterHits, df, dateRange, twitterQuery)
    ensures IsSubseq(d.telegramHits, df) && IsSubseq(d.twitterHits, df)
    ensures d.combined == d.telegramHits + d.twitterHits
    ensures PlatformRows(d.combined, TelegramName) == d.telegramHits
    ensures PlatformRows(d.combined, TwitterName) == d.twitterHits
    ensures d.telegramTotals.posts == 0 <==> NoneInScope(df, dateRange, TelegramName)
    ensures d.twitterTotals.posts == 0 <==> NoneInScope(df, dateRange, TwitterName)
    ensures FiguresWithinTotals(d.telegramFigures, df) && FiguresWithinTotals(d.twitterFigures, df)
    ensures RankedByEngagement(d.telegramRanked) && multiset(d.telegramRanked) == multiset(d.telegramHits)
    ensures RankedByEngagement(d.twitterRanked) && multiset(d.twitterRanked) == multiset(d.twitterHits)
    ensures d.telegramFeed == CardsOf(d.telegramRanked, Telegram)
    ensures d.twitterFeed == CardsOf(d.twitterRanked, Twitter)
  {
    var s := FilterPosts(df, dateRange, lang, telegramQuery, twitterQuery);

    var telegramTotals, telegramFigures := KeyFigures(df, s.telegramRows, s.telegramHits);
    var twitterTotals, twitterFigures := KeyFigures(df, s.twitterRows, s.twitterHits);

    var telegramRanked, telegramFeed := RenderFeed(s.telegramHits, Telegram);
    var twitterRanked, twitterFeed := RenderFeed(s.twitterHits, Twitter);

    RowsInRangeAreInScope(df, dateRange, TelegramName);
    RowsInRangeAreInScope(df, dateRange, TwitterName);

    d := Dashboard(
      s.telegramHits, s.twitterHits, s.combined,
      telegramTotals, twitterTotals,
      telegramFigures, twitterFigures,
      telegramRanked, twitterRanked,
      telegramFeed, twitterFeed);
  }
}
