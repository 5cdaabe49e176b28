# Search dashboard: data pipeline model

This project models the data side of the search page in `homepage.py`. The page lets an analyst
search Telegram messages and tweets with a boolean query per platform, and compare the
results with everything posted in the chosen date range. The page does the following:

- it keeps the posts whose calendar day lies in an inclusive date range;
- it splits them by the `plateforme` column into Telegram and Twitter rows;
- it runs the Telegram query against `translated_text` when the language is "english" and
  against `text` otherwise, and runs the Twitter query against `text` always;
- it concatenates the Telegram hits and the Twitter hits;
- it totals distinct posts, distinct channels, views and engagements per platform, and pairs
  each figure of the hits with the same figure of all the platform's rows in range (the
  percentages);
- it lists each platform's hits by engagements, highest first, as feed cards. Numbers are shown
  through `format_number`, and each tweet gets a permalink.

The boolean query engine is an imported library. Here each compiled query is a parameter of
type `string -> bool`.

Modules:

- `Decimal` (decimal.dfy): `str` of an integer, and a parser that inverts it.
- `NumberFormat` (format.dfy): `format_number`.
- `Seqs` (seqs.dfy): boolean-mask selection, order-preserving subsequences, column sums and
  `nunique`.
- `Posts` (posts.dfy): the row type and the date ordering.
- `RecordFilter` (filter.dfy): the date, platform and query filters.
- `Metrics` (metrics.dfy): totals and the percentage pairs.
- `Links` (links.dfy): the tweet permalink.
- `Ranking` (ranking.dfy): the engagement sort and the feed loop.
- `Homepage` (homepage.dfy): `main`'s pipeline as methods that call the functions above in the
  order the script runs them.

Three behaviours of the code matter for what the model promises:

- The percentage divisions are unguarded. The two distinct-count percentages divide Python
  ints, so a platform with no row in range raises `ZeroDivisionError` there. The views and
  engagements percentages divide numpy integers, so a zero total gives nan or an infinity
  instead of an error.
- `sort_values` uses its default sort, which is not stable. Rows with equal engagements come
  in no promised order.
- The Telegram feed card always shows `translated_text`, whatever language was searched
  (homepage.py:134).

## Model

| member | source | states |
|---|---|---|
| `Decimal.IntToString` | homepage.py:12 | `str(n)`: a minus sign exactly when n < 0, then at least one digit and nothing else |
| `Decimal.IntRoundTrip` | homepage.py:12 | `str(n)` of any integer, 0 and negatives included, reads back as `n` |
| `Decimal.ParseNatIsInverse` | homepage.py:12 | the numerals the parser accepts are exactly those the decimal writer produces, so `str` is injective and canonical |
| `NumberFormat.FormatNumber` | homepage.py:10-18 | the last character is a digit iff n < 1000, "K" iff 1000 <= n < 10^6, "M" iff 10^6 <= n < 10^9, "B" iff n >= 10^9; the four bands are disjoint and cover every integer |
| `NumberFormat.FormatSmallIsDecimal` | homepage.py:10-12 | below 1000 (0 and negatives included) `format_number` returns exactly the decimal text of the number |
| `NumberFormat.ScaledIsClose` | homepage.py:13-18 | from 1000 on, the text reads back as t tenths of the band's unit (1000, 10^6 or 10^9) with `abs(t * unit / 10 - n) <= unit / 20`, i.e. one decimal rounded to the nearest tenth |
| `NumberFormat.ScaledTenthsBounds` | homepage.py:14 | the rounded tenths of `n / unit` lie within half a tenth of the exact quotient |
| `Posts.DateLeIsTotalOrder` | homepage.py:59-60 | calendar dates compare as a total order, so `start <= d <= end` is an interval |
| `Seqs.KeepCharacterized` | homepage.py:60 | a boolean-mask selection is an order-preserving subsequence, and keeps each row on which the mask holds exactly as often as it occurs and no other row |
| `Seqs.NUniqueAtMostLength` | homepage.py:77-78 | `nunique` of a column is at most the number of rows |
| `Seqs.SubseqNUnique` | homepage.py:120-124 | a subsequence has a subset of the distinct values of its source, hence no larger `nunique` |
| `Seqs.SubseqSum` | homepage.py:126-130 | over non-negative values a subsequence's sum lies between 0 and the source's sum |
| `RecordFilter.SearchColumn` | homepage.py:54-57 | the Telegram search column is `translated_text` iff the language is "english", `text` otherwise |
| `RecordFilter.FilterByDate` | homepage.py:59-60 | the kept rows are exactly those whose day d has start <= d <= end (both ends included), with their multiplicities, in their original order |
| `RecordFilter.PlatformRows` | homepage.py:63-64 | a partition holds exactly the rows whose `plateforme` equals the name, with their multiplicities, as an order-preserving subsequence |
| `RecordFilter.OtherPlatformsDropped` | homepage.py:63-64 | a row whose platform is neither "Telegram" nor "Twitter" is in neither partition |
| `RecordFilter.PartitionsDisjoint` | homepage.py:63-64 | no row is in both partitions |
| `RecordFilter.TelegramHits` | homepage.py:66-67 | a Telegram row survives iff the query holds on `translated_text` when the language is "english" and on `text` otherwise; duplicates keep their multiplicity and the hits are an order-preserving subsequence of the partition |
| `RecordFilter.TwitterHits` | homepage.py:69-70 | a Twitter row survives iff the query holds on `text`, whatever the language; duplicates keep their multiplicity and the hits are an order-preserving subsequence of the partition |
| `RecordFilter.QueryFilterIsFixedPoint` | homepage.py:66-70 | filtering the Telegram hits or the Twitter hits again with the same query returns them unchanged |
| `RecordFilter.ConcatSplitsByPlatform` | homepage.py:72 | splitting the concatenation by platform gives back exactly the Telegram hits and the Twitter hits, so all Telegram hits come before all Twitter hits |
| `Metrics.TotalsOf` | homepage.py:77-85 | post and channel totals (`nunique` of `message_id` and `user_id`) are at most the row count and are zero exactly when there are no rows |
| `Metrics.FiguresOf` | homepage.py:120-130 | the count denominators are zero exactly when the platform has no row in range, and the count numerators exactly when nothing matched the query |
| `Metrics.FiguresBounded` | homepage.py:120-130 | each numerator is computed over a subsequence of its denominator's rows: distinct counts never exceed their totals, and with non-negative views and engagements neither do the sums |
| `Metrics.CountShare` | homepage.py:121-124 | a Python int division: `ZeroDivisionError` exactly when the total is zero, otherwise a fraction, in [0, 1] when 0 <= num <= den |
| `Metrics.SumShare` | homepage.py:127-130 | a numpy integer division: a fraction exactly when the total is non-zero, nan exactly for 0/0, otherwise an infinity of the numerator's sign; in [0, 1] when 0 <= num <= den |
| `Metrics.CountSharesInUnitInterval` | homepage.py:119-124 | the first count division fails exactly when the platform has no row in range; otherwise both count percentages lie between 0% and 100% |
| `Metrics.SumSharesInUnitIntervalOrNaN` | homepage.py:125-130 | with non-negative views and engagements, each sum percentage is nan exactly when the platform's total is zero, and otherwise lies between 0% and 100%; it is never an infinity |
| `Ranking.InsertByEngagement` | homepage.py:131 | inserting a row into a list ranked by engagements keeps it ranked and adds exactly that row |
| `Ranking.SortByEngagement` | homepage.py:131 | the sorted rows are a permutation of the input in non-increasing order of engagements; ties are left unordered |
| `Ranking.CardOf` | homepage.py:131-159 | a card carries the post's date and its five counts, and has a link exactly when it is a Twitter card |
| `Ranking.CardShowsPost` | homepage.py:131-159 | a card names the post's author and shows `translated_text` on Telegram and `text` on Twitter |
| `Ranking.CardsOf` | homepage.py:131-159 | one card per row, in the rows' order, each built from its row |
| `Ranking.RenderFeed` | homepage.py:131-159 | the display loop visits every filtered row exactly once, in non-increasing order of engagements, and emits that row's card |
| `Ranking.EmitCards` | homepage.py:132-159 | the loop writes exactly one card per ranked row, in the ranked order |
| `Ranking.TwitterCardLinksToPost` | homepage.py:154-159 | a tweet's card carries a link that reads back as the tweet's author and message id |
| `Links.TwitterPermalink` | homepage.py:159 | the link starts with "https://www.twitter.com/" and is longer than the base, user name and "/status/" together |
| `Links.PermalinkRoundTrip` | homepage.py:159 | for a user name without '/', the link `https://www.twitter.com/{user_name}/status/{message_id}` parses back to exactly that user name and id, so different tweets get different links |
| `Homepage.RowsInRangeAreInScope` | homepage.py:59-64 | a platform's rows of the date range are an ordered subsequence of the table holding exactly its in-range rows of that platform, and their post total is zero exactly when the table has none |
| `Homepage.TelegramHitsInScope` | homepage.py:59-67 | the Telegram hits are exactly the table's in-range Telegram rows the query accepts on the language's column, in the table's order |
| `Homepage.TwitterHitsInScope` | homepage.py:59-70 | the Twitter hits are exactly the table's in-range Twitter rows the query accepts on `text`, in the table's order |
| `Homepage.FilterPosts` | homepage.py:54-72 | each partition is the platform's rows of the date-filtered table and each hit list is that partition filtered by its query, with duplicates kept; the members are exactly the in-scope (matching) rows, everything is an ordered subsequence of the table, and the concatenation splits back into the two hit lists |
| `Homepage.KeyFigures` | homepage.py:77-130 | the totals are `TotalsOf` the platform's rows in range and the percentage pairs are `FiguresOf` the hits over those rows; each numerator stays within its denominator, and the count totals are zero iff there are no rows |
| `Homepage.Run` | homepage.py:54-159 | the whole pipeline: the hits are the query-filtered partitions of the date-filtered table, the totals and pairs are taken over each platform's rows in range, a zero post total means no in-scope row, and each feed is the hits ranked by engagements with one card per hit |

## Left out

- Page layout, widgets, `st.metric`/`st.write`, the plotly chart and the page configuration
  (homepage.py:21-49, 110-117, 137-139) are presentation. The HTML markup around the feed
  cards is presentation too.
- The line of counts under each card (homepage.py:135, 158) writes the five counts through
  `format_number`. A card holds the five counts (`Ranking.StatsOf`), and the text line
  itself is not built.
- Loading the pickle and the colour palette JSON (homepage.py:33-36, 104) is I/O. The table is
  a parameter of `Homepage.Run`.
- The `eldar` boolean query engine is a library that is not part of this model. A compiled
  query is a `string -> bool` parameter. Its case, accent and whole-word options and its
  behaviour on missing (null) text are not modelled. Text columns are always strings here.
- The rolling-period resampling for the chart (homepage.py:99-103) is left out. Its bin
  anchoring and the parsing of strings such as "7D" are pandas behaviour.
- NumberFormat.FormatNumber: the `:.1f` digits are modelled as the quotient rounded to the
  nearest tenth, with exact halves rounded up. Python rounds the binary floating-point
  quotient, so exact ties may come out differently. Float inputs such as `12.0` are not
  modelled: columns are integers.
- The `{:.2%}` strings are not modelled. `Metrics.CountShare` and `Metrics.SumShare` yield the
  exact rational value, or the error, nan or infinity the division produces. The model does
  not stop the page at a `ZeroDivisionError`: the pipeline returns the numerator/denominator
  pairs, and the divisions are separate functions of them.
- Metrics.TotalsOf: pandas `nunique` ignores NaN and `sum` skips it. Missing values are not
  modelled; every field is present.
- Homepage.Run requires the date widget to have returned two dates. With a single date,
  `date[1]` fails.
- Ranking.SortByEngagement: pandas' default sort is not stable. The model's sort puts equal
  rows in one particular order, and its contract promises only the ranking and the
  permutation.
- `reset_index` and the extra `index` column from `pd.concat(...).reset_index()` are left out.
  Row identity is the row's value.
- Homepage.FilterPosts: the totals re-select `df[df['plateforme']=='Telegram']` from the
  date-filtered table. That is the same expression as the Telegram partition, so the model
  reuses the partition.
