/**
 * The business record the query layer works over, the two numeric metrics the
 * aggregates rank by, and the running-maximum fold they rank with.
 */
module Businesses {
  import opened Wrappers

  /** The nested `attributes` object; only its `Ambience` flags are read. */
  datatype Attributes = Attributes(ambience: Option<map<string, bool>>)

  /**
   * One business. Every field but the identifier and the name may be absent.
   * `hours` maps a day name to a free-form time range; only its keys matter.
   */
  datatype Business = Business(
    businessId: string,
    name: string,
    city: Option<string>,
    state: Option<string>,
    stars: Option<real>,
    reviewCount: Option<real>,
    categories: Option<seq<string>>,
    hours: Option<map<string, string>>,
    attributes: Option<Attributes>)

  /** The two properties an aggregate may rank by: `"stars"` and `"review_count"`. */
  datatype Metric = Stars | ReviewCount

  function Value(b: Business, m: Metric): Option<real>
  {
    match m
    case Stars => b.stars
    case ReviewCount => b.reviewCount
  }

  /** JavaScript's `Number.MIN_VALUE`, the smallest positive double, 2 to the power -1074. */
  const MinValue: real := 1.0 / 202402253307310618352495346718917307049556649764142118356901358027430339567995346891960383701437124495187077864316811911389808737385793476867013399940738509921517424276566361364466907742093216341239767678472745068562007483424692698618103355649159556340810056512358769552333414615230502532186327508646006263307707741093494784.0

  lemma MinValueIsTiny()
    ensures 0.0 < MinValue < 1.0
  {
  }

  /** One step of the fold: a present value at least the running maximum replaces it. */
  function Step(acc: real, b: Business, m: Metric): real
  {
    match Value(b, m)
    case Some(v) => if v >= acc then v else acc
    case None => acc
  }

  /** The left fold `reduce` performs over `s` from the accumulator `acc`. */
  function FoldMax(s: seq<Business>, m: Metric, acc: real): (r: real)
    ensures acc <= r
    ensures forall k :: 0 <= k < |s| && Value(s[k], m).Some? ==> Value(s[k], m).value <= r
    ensures r == acc || exists k :: 0 <= k < |s| && Value(s[k], m) == Some(r)
    decreases |s|
  {
    if s == [] then acc
    else
      var r := FoldMax(s[1..], m, Step(acc, s[0], m));
      assert forall k :: 1 <= k < |s| ==> s[k] == s[1..][k - 1];
      r
  }

  /**
   * The running maximum of metric `m` over `s` started at `Number.MIN_VALUE`:
   * the largest present value when one reaches `MinValue`, and `MinValue` itself otherwise.
   */
  function MaxMetric(s: seq<Business>, m: Metric): (r: real)
    ensures MinValue <= r
    ensures forall k :: 0 <= k < |s| && Value(s[k], m).Some? ==> Value(s[k], m).value <= r
    ensures r == MinValue || exists k :: 0 <= k < |s| && Value(s[k], m) == Some(r)
  {
    FoldMax(s, m, MinValue)
  }

  /** A present value at least `MinValue` that no present value in `s` exceeds is the running maximum. */
  lemma MaxMetricIsGreatest(s: seq<Business>, m: Metric, i: nat)
    requires i < |s| && Value(s[i], m).Some? && Value(s[i], m).value >= MinValue
    requires forall k :: 0 <= k < |s| && Value(s[k], m).Some? ==> Value(s[k], m).value <= Value(s[i], m).value
    ensures MaxMetric(s, m) == Value(s[i], m).value
  {
  }

  /** When no present value reaches `MinValue`, the running maximum stays at `MinValue` and no record carries it. */
  lemma MaxMetricUnreached(s: seq<Business>, m: Metric)
    requires forall k :: 0 <= k < |s| && Value(s[k], m).Some? ==> Value(s[k], m).value < MinValue
    ensures MaxMetric(s, m) == MinValue
    ensures forall k :: 0 <= k < |s| ==> Value(s[k], m) != Some(MaxMetric(s, m))
  {
  }
}
