/**
 * Per-platform key figures: distinct posts, distinct channels, total views and
 * total engagements, and the filtered-over-total pairs the percentages are
 * computed from.
 */
module Metrics {
  import opened Seqs
  import opened Posts

  datatype Totals = Totals(posts: nat, channels: nat, views: int, engagements: int)

  /** A percentage before division: numerator over denominator. */
  datatype Ratio = Ratio(num: int, den: int)

  /** The four percentages shown under a platform's key figures. */
  datatype Figures = Figures(posts: Ratio, channels: Ratio, views: Ratio, engagements: Ratio)

  /**
   * `message_id.nunique()`, `user_id.nunique()`, `views.sum()` and
   * `engagements.sum()` over a set of rows. The distinct counts never exceed
   * the number of rows and are zero exactly when there are no rows.
   */
  function TotalsOf(rows: seq<Post>): (t: Totals)
    ensures t.posts <= |rows| && t.channels <= |rows|
    ensures t.posts == 0 <==> rows == []
    ensures t.channels == 0 <==> rows == []
  {
    NUniqueAtMostLength(rows, (p: Post) => p.messageId);
    NUniqueAtMostLength(rows, (p: Post) => p.userId);
    NUniquePositive(rows, (p: Post) => p.messageId);
    NUniquePositive(rows, (p: Post) => p.userId);
    Totals(
      NUnique(rows, (p: Post) => p.messageId),
      NUnique(rows, (p: Post) => p.userId),
      Sum(rows, (p: Post) => p.views),
      Sum(rows, (p: Post) => p.engagements))
  }

  /**
   * Each figure of the filtered rows over the same figure of all the
   * platform's rows in range. The count denominators are zero exactly when the
   * platform has no row in range, and the count numerators exactly when
   * nothing matched the query.
   */
  function FiguresOf(hits: seq<Post>, platformRows: seq<Post>): (f: Figures)
    ensures f.posts.den == 0 <==> platformRows == []
    ensures f.channels.den == 0 <==> platformRows == []
    ensures f.posts.num == 0 <==> hits == []
    ensures f.channels.num == 0 <==> hits == []
  {
    var part := TotalsOf(hits);
    var whole := TotalsOf(platformRows);
    Figures(
      Ratio(part.posts, whole.posts),
      Ratio(part.channels, whole.channels),
      Ratio(part.views, whole.views),
      Ratio(part.engagements, whole.engagements))
  }

  /** What a percentage's division yields. */
  datatype Quotient = Fraction(value: real) | ZeroDivisionError | NaN | Infinity(positive: bool)

  /**
   * A distinct-count percentage: both operands are Python ints, so a zero
   * denominator raises `ZeroDivisionError` and the page stops there.
   */
  function CountShare(r: Ratio): (q: Quotient)
    ensures q.ZeroDivisionError? <==> r.den == 0
    ensures q.Fraction? <==> r.den != 0
    ensures r.den != 0 && 0 <= r.num <= r.den ==> 0.0 <= q.value <= 1.0
  {
    if r.den == 0 then ZeroDivisionError else Fraction(r.num as real / r.den as real)
  }

  /**
   * A views or engagements percentage: both operands are numpy integers, so a
   * zero denominator does not raise; it gives nan over a zero numerator and an
   * infinity of the numerator's sign otherwise.
   */
  function SumShare(r: Ratio): (q: Quotient)
    ensures q.Fraction? <==> r.den != 0
    ensures q.NaN? <==> r.den == 0 && r.num == 0
    ensures q.Infinity? <==> r.den == 0 && r.num != 0
    ensures q.Infinity? ==> q.positive == (r.num > 0)
    ensures r.den != 0 && 0 <= r.num <= r.den ==> 0.0 <= q.value <= 1.0
  {
    if r.den != 0 then Fraction(r.num as real / r.den as real)
    else if r.num == 0 then NaN
    else Infinity(r.num > 0)
  }

  /**
   * When the filtered rows are a subsequence of the rows the denominators are
   * taken over, each distinct count is at most its total; with non-negative
   * views and engagements, so is each sum.
   */
  lemma FiguresBounded(hits: seq<Post>, platformRows: seq<Post>)
    requires IsSubseq(hits, platformRows)
    ensures var f := FiguresOf(hits, platformRows);
      && 0 <= f.posts.num <= f.posts.den
      && 0 <= f.channels.num <= f.channels.den
    ensures (forall p :: p in platformRows ==> NonNegativeCounts(p)) ==>
      var f := FiguresOf(hits, platformRows);
      && 0 <= f.views.num <= f.views.den
      && 0 <= f.engagements.num <= f.engagements.den
  {
    SubseqNUnique(hits, platformRows, (p: Post) => p.messageId);
    SubseqNUnique(hits, platformRows, (p: Post) => p.userId);
    if forall p :: p in platformRows ==> NonNegativeCounts(p) {
      SubseqSum(hits, platformRows, (p: Post) => p.views);
      SubseqSum(hits, platformRows, (p: Post) => p.engagements);
    }
  }

  /**
   * With rows to divide by, both count percentages are defined and lie between
   * 0% and 100%; without any, the first count division fails.
   */
  lemma CountSharesInUnitInterval(hits: seq<Post>, platformRows: seq<Post>)
    requires IsSubseq(hits, platformRows)
    ensures CountShare(FiguresOf(hits, platformRows).posts).ZeroDivisionError? <==> platformRows == []
    ensures platformRows != [] ==>
      var f := FiguresOf(hits, platformRows);
      && CountShare(f.posts).Fraction? && 0.0 <= CountShare(f.posts).value <= 1.0
      && CountShare(f.channels).Fraction? && 0.0 <= CountShare(f.channels).value <= 1.0
  {
    FiguresBounded(hits, platformRows);
  }

  /**
   * With non-negative views and engagements, each sum percentage is either
   * between 0% and 100% or, when the platform's total is zero, nan: never an
   * infinity and never an error.
   */
  lemma SumSharesInUnitIntervalOrNaN(hits: seq<Post>, platformRows: seq<Post>)
    requires IsSubseq(hits, platformRows)
    requires forall p :: p in platformRows ==> NonNegativeCounts(p)
    ensures var f := FiguresOf(hits, platformRows);
      && (SumShare(f.views).NaN? <==> f.views.den == 0)
      && (SumShare(f.views).Fraction? ==> 0.0 <= SumShare(f.views).value <= 1.0)
    ensures var f := FiguresOf(hits, platformRows);
      && (SumShare(f.engagements).NaN? <==> f.engagements.den == 0)
      && (SumShare(f.engagements).Fraction? ==> 0.0 <= SumShare(f.engagements).value <= 1.0)
  {
    FiguresBounded(hits, platformRows);
  }
}
