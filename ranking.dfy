/**
 * The feed under each platform's key figures: the filtered rows sorted by
 * engagements, highest first, each shown as a card.
 */
module Ranking {
  import opened Decimal
  import opened Posts
  import opened Links

  datatype Platform = Telegram | Twitter

  /** Non-increasing engagements from the first row to the last. */
  predicate RankedByEngagement(s: seq<Post>) {
    forall i, j :: 0 <= i < j < |s| ==> s[i].engagements >= s[j].engagements
  }

  function InsertByEngagement(p: Post, s: seq<Post>): (r: seq<Post>)
    requires RankedByEngagement(s)
    ensures RankedByEngagement(r)
    ensures multiset(r) == multiset(s) + multiset{p}
    ensures r[0] == p || (s != [] && r[0] == s[0])
    decreases |s|
  {
    if s == [] || p.engagements >= s[0].engagements then
      RankedCons(p, s);
      [p] + s
    else
      var rest := InsertByEngagement(p, s[1..]);
      assert s == [s[0]] + s[1..];
      RankedCons(s[0], rest);
      [s[0]] + rest
  }

  /** A row with at least the engagements of a ranked list's head can go in front of it. */
  lemma RankedCons(x: Post, s: seq<Post>)
    requires RankedByEngagement(s)
    requires s == [] || x.engagements >= s[0].engagements
    ensures RankedByEngagement([x] + s)
  {
  }

  /**
   * `sort_values(by="engagements", ascending=False)`. Only the order of the
   * engagement values is promised: rows with equal engagements may come in
   * any order.
   */
  function SortByEngagement(s: seq<Post>): (r: seq<Post>)
    ensures RankedByEngagement(r)
    ensures multiset(r) == multiset(s)
    decreases |s|
  {
    if s == [] then []
    else
      assert s == [s[0]] + s[1..];
      InsertByEngagement(s[0], SortByEngagement(s[1..]))
  }

  /** The five counts a feed entry shows under the post. */
  datatype Stats = Stats(engagements: int, views: int, shares: int, likes: int, comments: int)

  /** What a feed entry shows; the HTML markup around it is not modelled. */
  datatype Card = Card(author: string, date: Timestamp, body: string, stats: Stats, link: Option<string>)

  function StatsOf(p: Post): Stats {
    Stats(p.engagements, p.views, p.share, p.likes, p.comments)
  }

  /**
   * A feed entry: the author, the date and the five counts of the post. A
   * Telegram card shows the translated text, whatever language was searched,
   * and no link; a Twitter card shows the original text and a link.
   */
  function CardOf(p: Post, platform: Platform): (c: Card)
    ensures c.date == p.date && c.stats == StatsOf(p)
    ensures c.link.Some? <==> platform == Twitter
  {
    match platform
    case Telegram => Card(p.userName, p.date, p.translatedText, StatsOf(p), None)
    case Twitter =>
      Card(p.userName, p.date, p.text, StatsOf(p), Some(TwitterPermalink(p.userName, p.messageId)))
  }

  /**
   * A card names the post's author and shows the translated text on Telegram
   * and the original text on Twitter.
   */
  lemma CardShowsPost(p: Post, platform: Platform)
    ensures CardOf(p, platform).author == p.userName
    ensures CardOf(p, platform).body == if platform == Telegram then p.translatedText else p.text
  {
  }

  /** A Twitter card's link leads back to the tweet's author and message id. */
  lemma TwitterCardLinksToPost(p: Post)
    requires '/' !in p.userName
    ensures ParseTwitterPermalink(CardOf(p, Twitter).link.value) == Some((p.userName, p.messageId))
  {
    PermalinkRoundTrip(p.userName, p.messageId);
  }

  function CardsOf(rows: seq<Post>, platform: Platform): (cards: seq<Card>)
    ensures |cards| == |rows|
    ensures forall i :: 0 <= i < |rows| ==> cards[i] == CardOf(rows[i], platform)
  {
    if rows == [] then [] else CardsOf(rows[..|rows| - 1], platform) + [CardOf(rows[|rows| - 1], platform)]
  }

  /** Any card list that matches the rows one for one is the rows' feed. */
  lemma CardsOfIsPointwise(rows: seq<Post>, platform: Platform, cards: seq<Card>)
    requires |cards| == |rows|
    requires forall k :: 0 <= k < |rows| ==> cards[k] == CardOf(rows[k], platform)
    ensures cards == CardsOf(rows, platform)
  {
  }

  /**
   * The display loop: every filtered row is visited exactly once, in
   * non-increasing order of engagements, and one card is written per visit.
   */
  method RenderFeed(rows: seq<Post>, platform: Platform) returns (ranked: seq<Post>, cards: seq<Card>)
    ensures RankedByEngagement(ranked)
    ensures multiset(ranked) == multiset(rows)
    ensures cards == CardsOf(ranked, platform)
  {
    ranked := SortByEngagement(rows);
    cards := EmitCards(ranked, platform);
  }

  /** The loop body of the feed: one card per row, in the rows' order. */
  method EmitCards(ranked: seq<Post>, platform: Platform) returns (cards: seq<Card>)
    ensures cards == CardsOf(ranked, platform)
  {
    cards := [];
    var i := 0;
    while i < |ranked|
      invariant 0 <= i <= |ranked|
      invariant |cards| == i
      invariant forall k :: 0 <= k < i ==> cards[k] == CardOf(ranked[k], platform)
    {
      var card := CardOf(ranked[i], platform);
      cards := cards + [card];
      i := i + 1;
    }
    CardsOfIsPointwise(ranked, platform, cards);
  }
}
