# Fluent business queries, modelled in Dafny

This project models `FluentBusinesses`, a small in-memory query layer over
Yelp-style business records. A `FluentBusinesses` value wraps an ordered
sequence of records and never changes it. Its five chainable filters
(`fromCityInState`, `hasStarsGeq`, `inCategory`, `hasHoursOnDays`,
`hasAmbience`) each return a new wrapper over the records that pass a test,
in their original order. Its two aggregates (`bestPlace`, `mostReviews`) pick
one record by a two-pass tie-break, or return nothing.

The source is pure, so the model is pure too:

* `wrappers.dfy`: `Option`, for absent fields and for "nothing found".
* `sequences.dfy`: `Filter` and `Find`, which behave like JavaScript's
  `Array.filter` and `Array.find`, plus their laws. These are: membership,
  multiplicity, order preservation through an explicit index embedding,
  idempotence, commutation, and distribution over concatenation.
* `businesses.dfy`: the record datatype with optional fields, the two
  ranking metrics, `Number.MIN_VALUE`, and the `reduce` running-maximum
  fold.
* `fluent_businesses.dfy`: the wrapper datatype, the five filters, the tie-set
  helper and the aggregates. It also holds the main theorem: the fold-based
  aggregate returns the first record that ranks best lexicographically
  (`FirstBestAt`).
* `fixture.dfy`: the six-record fixture from the repository's test suite, and
  each expected test outcome as a lemma.

Modelling decisions:

* **Numbers.** Star ratings and review counts are `real`. The source only
  compares them, so nothing depends on floating-point arithmetic.
* **`Number.MIN_VALUE`.** It is `MinValue`, exactly 2^-1074, so it is
  positive, as in JavaScript. Each fold starts from it (FluentBusinesses.ts:75
  and 88) and replaces the accumulator only with a present value that is
  `>=` it (lines 71 and 84). So a metric below
  `MinValue` (zero or negative) never becomes the maximum. When no record
  reaches `MinValue`, the tie set is empty and the aggregate returns
  `None` (`BestByNone`, `BestByMetricsPositive`, `ZeroRatedIsNeverBest`).
* **Selectors.** The `"stars" | "review_count"` property selector is the
  two-case datatype `Metric`.
* **`bestWhatever`.** The string-dispatched `bestWhatever(choice)` is
  `BestBy(primary, secondary)`. `bestPlace` is `BestBy(Stars, ReviewCount)`
  and `mostReviews` is `BestBy(ReviewCount, Stars)`. These are the two
  branches the source reaches. `bestWhatever` also computes the tie set and
  maximum of the branch it does not return. Those values are unused and have
  no effect, so the model does not compute them.
* **Filter tests.** Each filter's test is a case of the datatype `Criterion`.
  Every filter is `Where(criterion)`. This lets idempotence and commutation
  be stated once for all five filters (`WhereIdempotent`, `WhereCommutes`).
* **Empty `days`.** The presence test on `hours` sits inside the `every` of
  `hasHoursOnDays` (FluentBusinesses.ts:31). So an empty list of days keeps
  every record, including records with no `hours` at all.

## Model

| member | source | states |
|---|---|---|
| `Sequences.Filter` | 06-fluent-filter-and-json/src/FluentBusinesses.ts:14-80 | a stable filter is never longer than its input |
| `Sequences.FilterMembers` | 06-fluent-filter-and-json/src/FluentBusinesses.ts:14-49 | every kept element comes from the input and passes the test; every passing input element is kept |
| `Sequences.FilterCount` | 06-fluent-filter-and-json/src/FluentBusinesses.ts:14-49 | each passing element is kept as often as it occurs in the input; each failing one never appears |
| `Sequences.FilterEmbeds` | 06-fluent-filter-and-json/src/FluentBusinesses.ts:14-49 | the kept positions strictly increase and spell out the filtered sequence, so the original relative order is preserved |
| `Sequences.FilterIsSubsequence` | 06-fluent-filter-and-json/src/FluentBusinesses.ts:14-49 | the filtered sequence is an order-preserving subsequence of the input |
| `Sequences.FilterAll` | 06-fluent-filter-and-json/src/FluentBusinesses.ts:31 | when every element passes, filtering returns the input unchanged |
| `Sequences.FilterIdempotent` | 06-fluent-filter-and-json/src/FluentBusinesses.ts:14-49 | filtering twice by the same test equals filtering once |
| `Sequences.FilterCommutes` | 06-fluent-filter-and-json/src/FluentBusinesses.ts:14-49 | two filters applied in either order give the same sequence |
| `Sequences.FilterAppend` | 06-fluent-filter-and-json/src/FluentBusinesses.ts:14-49 | filtering a concatenation is concatenating the filtered parts |
| `Sequences.Find` | 06-fluent-filter-and-json/src/FluentBusinesses.ts:62-64 | `find` returns none exactly when nothing passes; otherwise it returns the element at some index that passes, with no earlier element passing |
| `Sequences.FindInFilter` | 06-fluent-filter-and-json/src/FluentBusinesses.ts:55-64 | finding within a filtered sequence is finding the first element that passes both tests |
| `Businesses.MinValueIsTiny` | 06-fluent-filter-and-json/src/FluentBusinesses.ts:75 | the fold's starting value `Number.MIN_VALUE` lies strictly between 0 and 1 |
| `Businesses.Step` | 06-fluent-filter-and-json/src/FluentBusinesses.ts:71-74 | the `reduce` callback: a present value at least the accumulator replaces it, otherwise the accumulator is kept |
| `Businesses.FoldMax` | 06-fluent-filter-and-json/src/FluentBusinesses.ts:70-75 | the `reduce` result is at least the start, bounds every present value, and is either the start or a present value |
| `Businesses.MaxMetric` | 06-fluent-filter-and-json/src/FluentBusinesses.ts:69-89 | the running maximum from `Number.MIN_VALUE` is at least `MinValue`, bounds every present value, and is `MinValue` or some record's value |
| `Businesses.MaxMetricIsGreatest` | 06-fluent-filter-and-json/src/FluentBusinesses.ts:69-76 | a present value of at least `MinValue` that nothing exceeds is the running maximum |
| `Businesses.MaxMetricUnreached` | 06-fluent-filter-and-json/src/FluentBusinesses.ts:70-75 | if no present value reaches `MinValue`, the maximum stays `MinValue` and no record carries it |
| `Fluent.Matches` | 06-fluent-filter-and-json/src/FluentBusinesses.ts:15-47 | the callback of each `Array.filter`; absent fields never match, at any layer of nesting |
| `Fluent.FluentBusinesses.GetData` | 06-fluent-filter-and-json/src/FluentBusinesses.ts:10-12 | `getData` returns the wrapped sequence unchanged |
| `Fluent.FluentBusinesses.Where` | 06-fluent-filter-and-json/src/FluentBusinesses.ts:14-49 | a filter keeps a record exactly when it passes the criterion; the result is an order-preserving subsequence with multiplicities kept; it is empty when nothing passes |
| `Fluent.FluentBusinesses.FromCityInState` | 06-fluent-filter-and-json/src/FluentBusinesses.ts:14-16 | a record is kept exactly when its city and its state are present and equal the arguments |
| `Fluent.FluentBusinesses.HasStarsGeq` | 06-fluent-filter-and-json/src/FluentBusinesses.ts:18-21 | a record is kept exactly when its stars are present and at least the threshold; a record without stars is never kept |
| `Fluent.FluentBusinesses.InCategory` | 06-fluent-filter-and-json/src/FluentBusinesses.ts:23-26 | a record is kept exactly when its categories are present and contain the category |
| `Fluent.FluentBusinesses.HasHoursOnDays` | 06-fluent-filter-and-json/src/FluentBusinesses.ts:28-33 | a record is kept exactly when every listed day is a key of its present hours; with no days every record is kept; otherwise only records with hours are kept |
| `Fluent.FluentBusinesses.HasAmbience` | 06-fluent-filter-and-json/src/FluentBusinesses.ts:35-49 | a record is kept exactly when attributes and Ambience are present, the name is a key, and its flag is true |
| `Fluent.FluentBusinesses.MaxBusinesses` | 06-fluent-filter-and-json/src/FluentBusinesses.ts:78-80 | the tie set holds exactly the records whose metric is present and equal to the given value |
| `Fluent.FluentBusinesses.BestBy` | 06-fluent-filter-and-json/src/FluentBusinesses.ts:51-67 | the tie-break helper only ever returns a record of the snapshot |
| `Fluent.FluentBusinesses.BestPlace` | 06-fluent-filter-and-json/src/FluentBusinesses.ts:91-94 | returns a record exactly when some index ranks best by stars, then review count; it then returns the first such record |
| `Fluent.FluentBusinesses.MostReviews` | 06-fluent-filter-and-json/src/FluentBusinesses.ts:96-99 | returns a record exactly when some index ranks best by review count, then stars; it then returns the first such record |
| `Fluent.WhereIdempotent` | 06-fluent-filter-and-json/src/FluentBusinesses.ts:14-49 | applying any filter twice equals applying it once |
| `Fluent.WhereCommutes` | 06-fluent-filter-and-json/src/FluentBusinesses.ts:14-49 | any two filters commute |
| `Fluent.CityAndStarsCommute` | 06-fluent-filter-and-json/src/FluentBusinesses.ts:14-21 | `fromCityInState` then `hasStarsGeq` equals the reverse order |
| `Fluent.GetDataReturnsData` | 06-fluent-filter-and-json/src/FluentBusinesses.ts:6-12 | `getData` returns exactly the sequence the wrapper was built from |
| `Fluent.BestByFindsFirstWinner` | 06-fluent-filter-and-json/src/FluentBusinesses.ts:51-89 | the helper returns the first record carrying both the primary maximum and the secondary maximum within the tie set |
| `Fluent.SecondMaxBounds` | 06-fluent-filter-and-json/src/FluentBusinesses.ts:55-59 | no record tied on the primary maximum has a larger secondary value than the tie set's running maximum |
| `Fluent.SecondMaxAttained` | 06-fluent-filter-and-json/src/FluentBusinesses.ts:55-59 | the tie set's secondary maximum is `MinValue` or belongs to a record tied on the primary maximum |
| `Fluent.FirstBestHasTop` | 06-fluent-filter-and-json/src/FluentBusinesses.ts:52-55 | a best-ranked record carries the primary running maximum |
| `Fluent.FirstBestHasSecond` | 06-fluent-filter-and-json/src/FluentBusinesses.ts:55-59 | a best-ranked record carries the secondary running maximum of the tie set |
| `Fluent.FirstWinnerIsFirstBest` | 06-fluent-filter-and-json/src/FluentBusinesses.ts:55-64 | the first record carrying both running maxima ranks best |
| `Fluent.BestByIsFirstBest` | 06-fluent-filter-and-json/src/FluentBusinesses.ts:51-99 | the aggregate returns a record exactly when a best-ranked index exists, and then returns the record at the first one |
| `Fluent.BestByNone` | 06-fluent-filter-and-json/src/FluentBusinesses.ts:62-79 | the aggregate is none exactly when no record tied on the primary maximum has a secondary value of at least `MinValue`; in particular on empty data, and when no primary value reaches `MinValue` |
| `Fluent.BestByMetricsPositive` | 06-fluent-filter-and-json/src/FluentBusinesses.ts:70-88 | a returned record has both metrics present and positive |
| `Fixture.FromCityInStateOnFixture` | 06-fluent-filter-and-json/src/FluentBusinesses.test.ts:171-183 | Charlotte/NC gives Applebee's, China Garden and Alpaul Automobile Wash in order; Holyoke/MA gives nothing |
| `Fixture.BestPlaceOnFixture` | 06-fluent-filter-and-json/src/FluentBusinesses.test.ts:86-93 | among the Charlotte records, China Garden wins the four-star tie on reviews |
| `Fixture.InCategoryOnFixture` | 06-fluent-filter-and-json/src/FluentBusinesses.test.ts:95-113 | Macma gives the Amherst record, Ice gives nothing, Tornado gives both Cristiano records in order |
| `Fixture.HasHoursOnDaysOnFixture` | 06-fluent-filter-and-json/src/FluentBusinesses.test.ts:116-121 | Monday, Tuesday and Thursday give only Cristiano Linon |
| `Fixture.HasHoursOnDaysNoneOnFixture` | 06-fluent-filter-and-json/src/FluentBusinesses.test.ts:122-127 | Wednesday and Sunday give nothing |
| `Fixture.HasAmbienceOnFixture` | 06-fluent-filter-and-json/src/FluentBusinesses.test.ts:130-141 | Marketing gives Applebee's and China Garden; the present-but-false BusinessOperation flag gives nothing |
| `Fixture.MostReviewsOnFixture` | 06-fluent-filter-and-json/src/FluentBusinesses.test.ts:145-149 | Beach Ventures Roofing wins the thirty-review, three-star tie by coming first |
| `Fixture.MostReviewsNoneOnFixture` | 06-fluent-filter-and-json/src/FluentBusinesses.test.ts:150-153 | on the Amherst record, which has no review count, `mostReviews` finds nothing |
| `Fixture.HasStarsGeqOnFixture` | 06-fluent-filter-and-json/src/FluentBusinesses.test.ts:156-168 | a threshold of 100 gives nothing; 4 gives Applebee's, China Garden and Cristiano Linon |
| `Fixture.ZeroRatedIsNeverBest` | 06-fluent-filter-and-json/src/FluentBusinesses.ts:69-80 | a single record rated zero stars is returned by neither aggregate |

## Left out

- Loading records (`loadYelpData`) and the declared `Business` type, from `../include/data.js`: `data.js` is not part of this model. File loading is I/O. The record datatype here is written by hand from the fields the core reads.
- The test harness (`describe`, `it`, `assert`): only its fixture and expected values are kept, as lemmas.
- JavaScript number semantics: metrics are exact reals. Only their comparisons matter, and `Number.MIN_VALUE` is the exact real 2^-1074 rather than an IEEE bit pattern.
- JavaScript truthiness and dynamic property access (`e[property]!`, `Ambience[ambience]`): Ambience flags are booleans, and the property selector is the `Metric` datatype.
- Array aliasing: `getData` returns the same array without copying. A value model cannot observe this reference identity.
- The `undefined` fallthrough of `bestWhatever` for a choice string other than the two it handles: the two aggregates are exposed directly, so that case cannot arise.
- The contents of `hours` time-range strings: only the presence of a day key matters.
- Fields the core never reads: only `business_id` and `name` are kept besides the queried fields.
