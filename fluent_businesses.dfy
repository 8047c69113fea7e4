/**
 * The fluent query chain: an immutable wrapper around an ordered sequence of
 * businesses, five chainable filters that each return a new wrapper over an
 * order-preserving subsequence, and two tie-break aggregates.
 */
module Fluent {
  import opened Wrappers
  import opened Sequences
  import opened Businesses

  /** The conditions the five filters test; each is one datatype case. */
  datatype Criterion =
    | CityInState(city: string, state: string)
    | StarsGeq(threshold: real)
    | Category(category: string)
    | HoursOnDays(days: seq<string>)
    | Ambience(ambience: string)

  /** Whether `b` passes criterion `c`. Absent fields never match, at any layer of nesting. */
  predicate Matches(c: Criterion, b: Business)
  {
    match c
    case CityInState(city, state) => b.city == Some(city) && b.state == Some(state)
    case StarsGeq(t) => b.stars.Some? && b.stars.value >= t
    case Category(cat) => b.categories.Some? && cat in b.categories.value
    // The presence test on `hours` is inside the `every`, so no days asks nothing of `hours`.
    case HoursOnDays(days) => forall k :: 0 <= k < |days| ==> b.hours.Some? && days[k] in b.hours.value
    case Ambience(n) =>
      b.attributes.Some? && b.attributes.value.ambience.Some?
      && n in b.attributes.value.ambience.value && b.attributes.value.ambience.value[n]
  }

  function Keeps(c: Criterion): Business -> bool
  {
    b => Matches(c, b)
  }

  function HasValue(m: Metric, v: real): Business -> bool
  {
    b => Value(b, m) == Some(v)
  }

  /** Whether a record carries value `v` of `p` and value `w` of `q`. */
  predicate Wins(b: Business, p: Metric, v: real, q: Metric, w: real)
  {
    Value(b, p) == Some(v) && Value(b, q) == Some(w)
  }

  function Winner(p: Metric, v: real, q: Metric, w: real): Business -> bool
  {
    b => Wins(b, p, v, q, w)
  }

  /**
   * `r` is what a stable filter of `s` by `p` must be: an order-preserving
   * subsequence holding each satisfying record as often as `s` does, and nothing else.
   */
  ghost predicate Selects(r: seq<Business>, s: seq<Business>, p: Business -> bool)
  {
    IsSubsequence(r, s) && forall b :: multiset(r)[b] == if p(b) then multiset(s)[b] else 0
  }

  /**
   * The first index of `s` whose record ranks best: its primary metric `p` is
   * present, at least `MinValue` and no smaller than any present primary value
   * in `s`; its secondary metric `q` is present, at least `MinValue` and no
   * smaller than that of any record tied with it on `p`; and no earlier record
   * has the same pair of values.
   */
  ghost predicate FirstBestAt(s: seq<Business>, p: Metric, q: Metric, i: int)
  {
    && 0 <= i < |s|
    && Value(s[i], p).Some? && Value(s[i], p).value >= MinValue
    && Value(s[i], q).Some? && Value(s[i], q).value >= MinValue
    && (forall k :: 0 <= k < |s| && Value(s[k], p).Some? ==> Value(s[k], p).value <= Value(s[i], p).value)
    && (forall k :: 0 <= k < |s| && Value(s[k], p) == Value(s[i], p) && Value(s[k], q).Some?
          ==> Value(s[k], q).value <= Value(s[i], q).value)
    && (forall j :: 0 <= j < i ==> Value(s[j], p) != Value(s[i], p) || Value(s[j], q) != Value(s[i], q))
  }

  datatype FluentBusinesses = FluentBusinesses(data: seq<Business>)
  {
    function GetData(): seq<Business>
    {
      data
    }

    /** The shared shape of the five filters: a new wrapper over the records satisfying `c`. */
    function Where(c: Criterion): (r: FluentBusinesses)
      ensures forall b :: b in r.data <==> b in data && Matches(c, b)
      ensures Selects(r.data, data, Keeps(c))
      ensures |r.data| <= |data|
      ensures (forall b :: b in data ==> !Matches(c, b)) ==> r.data == []
    {
      FilterMembers(data, Keeps(c));
      FilterIsSubsequence(data, Keeps(c));
      forall b ensures multiset(Filter(data, Keeps(c)))[b] == if Keeps(c)(b) then multiset(data)[b] else 0 {
        FilterCount(data, Keeps(c), b);
      }
      FluentBusinesses(Filter(data, Keeps(c)))
    }

    function FromCityInState(city: string, state: string): (r: FluentBusinesses)
      ensures forall b :: b in r.data <==> b in data && b.city == Some(city) && b.state == Some(state)
      ensures Selects(r.data, data, Keeps(CityInState(city, state)))
    {
      Where(CityInState(city, state))
    }

    function HasStarsGeq(stars: real): (r: FluentBusinesses)
      ensures forall b :: b in r.data <==> b in data && b.stars.Some? && b.stars.value >= stars
      ensures forall b :: b in r.data ==> b.stars != None
      ensures Selects(r.data, data, Keeps(StarsGeq(stars)))
    {
      Where(StarsGeq(stars))
    }

    function InCategory(category: string): (r: FluentBusinesses)
      ensures forall b :: b in r.data <==> b in data && b.categories.Some? && category in b.categories.value
      ensures Selects(r.data, data, Keeps(Category(category)))
    {
      Where(Category(category))
    }

    function HasHoursOnDays(days: seq<string>): (r: FluentBusinesses)
      ensures forall b :: b in r.data <==> b in data && forall d :: d in days ==> b.hours.Some? && d in b.hours.value
      ensures days == [] ==> r.data == data
      ensures days != [] ==> forall b :: b in r.data ==> b.hours.Some?
      ensures Selects(r.data, data, Keeps(HoursOnDays(days)))
    {
      if days == [] then FilterAll(data, Keeps(HoursOnDays(days))); Where(HoursOnDays(days))
      else assert days[0] in days; Where(HoursOnDays(days))
    }

    function HasAmbience(ambience: string): (r: FluentBusinesses)
      ensures forall b :: b in r.data <==>
                (b in data && b.attributes.Some? && b.attributes.value.ambience.Some?
                 && ambience in b.attributes.value.ambience.value && b.attributes.value.ambience.value[ambience])
      ensures Selects(r.data, data, Keeps(Ambience(ambience)))
    {
      Where(Ambience(ambience))
    }

    /** The records whose metric `m` is present and equal to `v`, in order. */
    function MaxBusinesses(m: Metric, v: real): (r: seq<Business>)
      ensures forall b :: b in r <==> b in data && Value(b, m) == Some(v)
    {
      FilterMembers(data, HasValue(m, v));
      Filter(data, HasValue(m, v))
    }

    /**
     * The tie-break helper behind both aggregates: the running maximum of `p`,
     * the records tied on it, the running maximum of `q` among those, and the
     * first tied record carrying that value of `q`.
     */
    function BestBy(p: Metric, q: Metric): (r: Option<Business>)
      ensures r.Some? ==> r.value in data
    {
      var top := MaxMetric(data, p);
      var ties := MaxBusinesses(p, top);
      var second := MaxMetric(ties, q);
      Find(ties, HasValue(q, second))
    }

    /** Highest stars, ties broken by most reviews, remaining ties by original order. */
    function BestPlace(): (r: Option<Business>)
      ensures r.Some? <==> exists i :: FirstBestAt(data, Stars, ReviewCount, i)
      ensures forall i :: FirstBestAt(data, Stars, ReviewCount, i) ==> r == Some(data[i])
    {
      BestByIsFirstBest(data, Stars, ReviewCount);
      BestBy(Stars, ReviewCount)
    }

    /** Most reviews, ties broken by highest stars, remaining ties by original order. */
    function MostReviews(): (r: Option<Business>)
      ensures r.Some? <==> exists i :: FirstBestAt(data, ReviewCount, Stars, i)
      ensures forall i :: FirstBestAt(data, ReviewCount, Stars, i) ==> r == Some(data[i])
    {
      BestByIsFirstBest(data, ReviewCount, Stars);
      BestBy(ReviewCount, Stars)
    }
  }

  /** The filters are idempotent: running the same one twice keeps what running it once kept. */
  lemma WhereIdempotent(fb: FluentBusinesses, c: Criterion)
    ensures fb.Where(c).Where(c) == fb.Where(c)
  {
    FilterIdempotent(fb.data, Keeps(c));
  }

  /** Any two filters commute. */
  lemma WhereCommutes(fb: FluentBusinesses, c: Criterion, d: Criterion)
    ensures fb.Where(c).Where(d) == fb.Where(d).Where(c)
  {
    FilterCommutes(fb.data, Keeps(c), Keeps(d));
  }

  /** Narrowing by location and by rating gives the same records in either order. */
  lemma CityAndStarsCommute(fb: FluentBusinesses, city: string, state: string, stars: real)
    ensures fb.FromCityInState(city, state).HasStarsGeq(stars) == fb.HasStarsGeq(stars).FromCityInState(city, state)
  {
    WhereCommutes(fb, CityInState(city, state), StarsGeq(stars));
  }

  /**
   * Because the running maximum starts at the positive `Number.MIN_VALUE`,
   * whatever an aggregate returns has both metrics present and positive: a
   * record rated 0 (or with 0 reviews) is never chosen.
   */
  lemma BestByMetricsPositive(s: seq<Business>, p: Metric, q: Metric)
    ensures FluentBusinesses(s).BestBy(p, q).Some? ==>
      && Value(FluentBusinesses(s).BestBy(p, q).value, p).Some? && Value(FluentBusinesses(s).BestBy(p, q).value, p).value > 0.0
      && Value(FluentBusinesses(s).BestBy(p, q).value, q).Some? && Value(FluentBusinesses(s).BestBy(p, q).value, q).value > 0.0
  {
    BestByIsFirstBest(s, p, q);
    MinValueIsTiny();
    if FluentBusinesses(s).BestBy(p, q).Some? {
      var i :| FirstBestAt(s, p, q, i);
    }
  }

  /** `getData` hands back exactly the records the wrapper was built from. */
  lemma GetDataReturnsData(s: seq<Business>)
    ensures FluentBusinesses(s).GetData() == s
  {
  }

  /** The running maximum of `q` among the records tied on the running maximum of `p`. */
  function SecondMax(s: seq<Business>, p: Metric, q: Metric): real
  {
    MaxMetric(FluentBusinesses(s).MaxBusinesses(p, MaxMetric(s, p)), q)
  }

  /** The record `BestBy` returns is the first one carrying both running maxima. */
  lemma BestByFindsFirstWinner(s: seq<Business>, p: Metric, q: Metric)
    ensures FluentBusinesses(s).BestBy(p, q) == Find(s, Winner(p, MaxMetric(s, p), q, SecondMax(s, p, q)))
  {
    var top := MaxMetric(s, p);
    FindInFilter(s, HasValue(p, top), HasValue(q, SecondMax(s, p, q)), Winner(p, top, q, SecondMax(s, p, q)));
  }

  /** The fold-based aggregate returns exactly the first best-ranked record, and none when there is none. */
  lemma BestByIsFirstBest(s: seq<Business>, p: Metric, q: Metric)
    ensures FluentBusinesses(s).BestBy(p, q).Some? <==> exists i :: FirstBestAt(s, p, q, i)
    ensures forall i :: FirstBestAt(s, p, q, i) ==> FluentBusinesses(s).BestBy(p, q) == Some(s[i])
  {
    var top := MaxMetric(s, p);
    var second := SecondMax(s, p, q);
    var w := Winner(p, top, q, second);
    BestByFindsFirstWinner(s, p, q);
    var r := FluentBusinesses(s).BestBy(p, q);
    assert r == Find(s, w);
    forall i | FirstBestAt(s, p, q, i) ensures w(s[i]) {
      FirstBestHasTop(s, p, q, i);
      FirstBestHasSecond(s, p, q, i);
    }
    if r.Some? {
      var i :| 0 <= i < |s| && s[i] == r.value && w(s[i]) && forall j :: 0 <= j < i ==> !w(s[j]);
      FirstWinnerIsFirstBest(s, p, q, i);
      forall i' | FirstBestAt(s, p, q, i') ensures r == Some(s[i']) {
        assert w(s[i']) && w(s[i]);
        assert i' == i;
      }
    }
  }

  /** A first best-ranked record carries the running maximum of its primary metric. */
  lemma FirstBestHasTop(s: seq<Business>, p: Metric, q: Metric, i: int)
    requires FirstBestAt(s, p, q, i)
    ensures Value(s[i], p) == Some(MaxMetric(s, p))
  {
    var top := MaxMetric(s, p);
    if top != MinValue {
      var k :| 0 <= k < |s| && Value(s[k], p) == Some(top);
    }
  }

  /** No record tied on the running maximum of `p` has a larger `q` than `SecondMax`. */
  lemma SecondMaxBounds(s: seq<Business>, p: Metric, q: Metric, k: int)
    requires 0 <= k < |s| && Value(s[k], p) == Some(MaxMetric(s, p)) && Value(s[k], q).Some?
    ensures Value(s[k], q).value <= SecondMax(s, p, q)
  {
    var ties := FluentBusinesses(s).MaxBusinesses(p, MaxMetric(s, p));
    assert s[k] in ties;
    var t :| 0 <= t < |ties| && ties[t] == s[k];
  }

  /** `SecondMax` is `MinValue` or the `q` of some record tied on the running maximum of `p`. */
  lemma SecondMaxAttained(s: seq<Business>, p: Metric, q: Metric)
    ensures SecondMax(s, p, q) == MinValue
      || exists k :: 0 <= k < |s| && Wins(s[k], p, MaxMetric(s, p), q, SecondMax(s, p, q))
  {
    var ties := FluentBusinesses(s).MaxBusinesses(p, MaxMetric(s, p));
    var second := SecondMax(s, p, q);
    if second != MinValue {
      var t :| 0 <= t < |ties| && Value(ties[t], q) == Some(second);
      assert ties[t] in s;
      var k :| 0 <= k < |s| && s[k] == ties[t];
      assert Wins(s[k], p, MaxMetric(s, p), q, second);
    }
  }

  /** A first best-ranked record carries the running maximum of its secondary metric among the tied records. */
  lemma FirstBestHasSecond(s: seq<Business>, p: Metric, q: Metric, i: int)
    requires FirstBestAt(s, p, q, i)
    ensures Value(s[i], q) == Some(SecondMax(s, p, q))
  {
    FirstBestHasTop(s, p, q, i);
    SecondMaxBounds(s, p, q, i);
    SecondMaxAttained(s, p, q);
  }

  /** The first record carrying both running maxima ranks best. */
  lemma FirstWinnerIsFirstBest(s: seq<Business>, p: Metric, q: Metric, i: int)
    requires 0 <= i < |s|
    requires Wins(s[i], p, MaxMetric(s, p), q, SecondMax(s, p, q))
    requires forall j :: 0 <= j < i ==> !Wins(s[j], p, MaxMetric(s, p), q, SecondMax(s, p, q))
    ensures FirstBestAt(s, p, q, i)
  {
    forall k | 0 <= k < |s| && Value(s[k], p) == Value(s[i], p) && Value(s[k], q).Some?
      ensures Value(s[k], q).value <= Value(s[i], q).value
    {
      SecondMaxBounds(s, p, q, k);
    }
  }

  /**
   * An aggregate finds nothing exactly when no record tied on the running
   * maximum of `p` has a value of `q` reaching `MinValue`; in particular on an
   * empty sequence, and when no value of `p` reaches `MinValue`.
   */
  lemma BestByNone(s: seq<Business>, p: Metric, q: Metric)
    ensures FluentBusinesses(s).BestBy(p, q).None? <==>
      forall k :: 0 <= k < |s| && Value(s[k], p) == Some(MaxMetric(s, p)) && Value(s[k], q).Some?
        ==> Value(s[k], q).value < MinValue
    ensures s == [] ==> FluentBusinesses(s).BestBy(p, q).None?
    ensures (forall k :: 0 <= k < |s| && Value(s[k], p).Some? ==> Value(s[k], p).value < MinValue)
      ==> FluentBusinesses(s).BestBy(p, q).None?
  {
    BestByFindsFirstWinner(s, p, q);
    SecondMaxAttained(s, p, q);
    forall k | 0 <= k < |s| && Value(s[k], p) == Some(MaxMetric(s, p)) && Value(s[k], q).Some?
      ensures Value(s[k], q).value <= SecondMax(s, p, q)
    {
      SecondMaxBounds(s, p, q, k);
    }
    if forall k :: 0 <= k < |s| && Value(s[k], p).Some? ==> Value(s[k], p).value < MinValue {
      MaxMetricUnreached(s, p);
    }
  }
}
