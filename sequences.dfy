/**
 * Order-preserving selection over sequences: the behaviour of JavaScript's
 * `Array.prototype.filter` and `Array.prototype.find`, which the query layer
 * is built from.
 */
module Sequences {
  import opened Wrappers

  /**
   * `idx` lists, in strictly increasing order, positions of `s` whose elements
   * spell out `r`.
   */
  ghost predicate Embeds<T>(r: seq<T>, s: seq<T>, idx: seq<int>)
  {
    && |idx| == |r|
    && (forall i :: 0 <= i < |idx| ==> 0 <= idx[i] < |s| && r[i] == s[idx[i]])
    && (forall i, j :: 0 <= i < j < |idx| ==> idx[i] < idx[j])
  }

  /** `r` can be obtained from `s` by deleting elements, keeping the relative order of the rest. */
  ghost predicate IsSubsequence<T>(r: seq<T>, s: seq<T>)
  {
    exists idx :: Embeds(r, s, idx)
  }

  /** The elements of `s` that satisfy `p`, scanned from the front as `Array.filter` does. */
  function Filter<T>(s: seq<T>, p: T -> bool): (r: seq<T>)
    ensures |r| <= |s|
  {
    if s == [] then []
    else if p(s[0]) then [s[0]] + Filter(s[1..], p)
    else Filter(s[1..], p)
  }

  /** An element is in the filtered sequence exactly when it is in `s` and satisfies `p`. */
  lemma {:induction false} FilterMembers<T>(s: seq<T>, p: T -> bool)
    ensures forall k :: 0 <= k < |Filter(s, p)| ==> Filter(s, p)[k] in s && p(Filter(s, p)[k])
    ensures forall k :: 0 <= k < |s| && p(s[k]) ==> s[k] in Filter(s, p)
  {
    if s != [] {
      FilterMembers(s[1..], p);
      assert forall k :: 1 <= k < |s| ==> s[k] == s[1..][k - 1];
    }
  }

  /** One step of the scan: the head is kept exactly when it satisfies `p`. */
  lemma FilterCons<T>(x: T, s: seq<T>, p: T -> bool)
    ensures Filter([x] + s, p) == if p(x) then [x] + Filter(s, p) else Filter(s, p)
  {
    assert ([x] + s)[1..] == s;
  }

  /** Filtering distributes over concatenation. */
  lemma {:induction false} FilterAppend<T>(a: seq<T>, b: seq<T>, p: T -> bool)
    ensures Filter(a + b, p) == Filter(a, p) + Filter(b, p)
  {
    if a == [] {
      assert a + b == b;
    } else {
      var h, t := a[0], a[1..];
      assert a == [h] + t;
      assert a + b == [h] + (t + b);
      FilterCons(h, t, p);
      FilterCons(h, t + b, p);
      FilterAppend(t, b, p);
    }
  }

  /** Filtering keeps every satisfying occurrence (duplicates included) and drops every other one. */
  lemma {:induction false} FilterCount<T>(s: seq<T>, p: T -> bool, x: T)
    ensures multiset(Filter(s, p))[x] == if p(x) then multiset(s)[x] else 0
  {
    if s != [] {
      FilterCount(s[1..], p, x);
      assert s == [s[0]] + s[1..];
      assert multiset(s) == multiset([s[0]]) + multiset(s[1..]);
    }
  }

  /** The positions of `s` whose elements satisfy `p`, in increasing order. */
  ghost function KeptPositions<T>(s: seq<T>, p: T -> bool): seq<int>
  {
    if s == [] then []
    else
      var rest := KeptPositions(s[1..], p);
      var shifted := seq(|rest|, i requires 0 <= i < |rest| => rest[i] + 1);
      if p(s[0]) then [0] + shifted else shifted
  }

  /** The kept positions spell out exactly the filtered sequence. */
  lemma {:induction false} FilterEmbeds<T>(s: seq<T>, p: T -> bool)
    ensures Embeds(Filter(s, p), s, KeptPositions(s, p))
  {
    if s != [] {
      FilterEmbeds(s[1..], p);
      EmbedsShift(Filter(s[1..], p), s, KeptPositions(s[1..], p));
      if p(s[0]) {
        EmbedsCons(Filter(s[1..], p), s, KeptPositions(s[1..], p));
      }
    }
  }

  /** Positions in the tail of `s` are positions in `s`, one further on. */
  lemma EmbedsShift<T>(r: seq<T>, s: seq<T>, idx: seq<int>)
    requires s != [] && Embeds(r, s[1..], idx)
    ensures Embeds(r, s, seq(|idx|, i requires 0 <= i < |idx| => idx[i] + 1))
  {
    var shifted := seq(|idx|, i requires 0 <= i < |idx| => idx[i] + 1);
    forall i | 0 <= i < |shifted| ensures 0 <= shifted[i] < |s| && r[i] == s[shifted[i]] {
      assert s[1..][idx[i]] == s[idx[i] + 1];
    }
  }

  /** Keeping the head of `s` puts position 0 in front of positions shifted past it. */
  lemma EmbedsCons<T>(r: seq<T>, s: seq<T>, idx: seq<int>)
    requires s != [] && Embeds(r, s[1..], idx)
    ensures Embeds([s[0]] + r, s, [0] + seq(|idx|, i requires 0 <= i < |idx| => idx[i] + 1))
  {
    var shifted := seq(|idx|, i requires 0 <= i < |idx| => idx[i] + 1);
    EmbedsShift(r, s, idx);
    var r', idx' := [s[0]] + r, [0] + shifted;
    assert forall i :: 0 < i < |idx'| ==> idx'[i] == shifted[i - 1] && r'[i] == r[i - 1];
  }

  /** Filtering neither reorders nor invents elements. */
  lemma FilterIsSubsequence<T>(s: seq<T>, p: T -> bool)
    ensures IsSubsequence(Filter(s, p), s)
  {
    FilterEmbeds(s, p);
  }

  /** Every element `s` keeps satisfies `p`, so the whole of `s` survives. */
  lemma {:induction false} FilterAll<T>(s: seq<T>, p: T -> bool)
    requires forall k :: 0 <= k < |s| ==> p(s[k])
    ensures Filter(s, p) == s
  {
    if s != [] {
      FilterAll(s[1..], p);
    }
  }

  /** Filtering twice with the same predicate changes nothing the second time. */
  lemma FilterIdempotent<T>(s: seq<T>, p: T -> bool)
    ensures Filter(Filter(s, p), p) == Filter(s, p)
  {
    var r := Filter(s, p);
    FilterMembers(s, p);
    FilterAll(r, p);
  }

  /** Two filters applied in either order give the same sequence. */
  lemma {:induction false} FilterCommutes<T>(s: seq<T>, p: T -> bool, q: T -> bool)
    ensures Filter(Filter(s, p), q) == Filter(Filter(s, q), p)
  {
    if s != [] {
      FilterCommutes(s[1..], p, q);
    }
  }

  /** The first element of `s` satisfying `p`, as `Array.find` returns it. */
  function Find<T>(s: seq<T>, p: T -> bool): (r: Option<T>)
    ensures r.None? <==> forall k :: 0 <= k < |s| ==> !p(s[k])
    ensures r.Some? ==> exists i :: 0 <= i < |s| && s[i] == r.value && p(s[i]) && forall j :: 0 <= j < i ==> !p(s[j])
  {
    if s == [] then None
    else if p(s[0]) then Some(s[0])
    else
      var r := Find(s[1..], p);
      assert r.Some? ==> exists i :: 0 < i < |s| && s[i] == r.value && p(s[i]) && forall j :: 0 <= j < i ==> !p(s[j]) by {
        if r.Some? {
          var i :| 0 <= i < |s[1..]| && s[1..][i] == r.value && p(s[1..][i]) && forall j :: 0 <= j < i ==> !p(s[1..][j]);
          assert forall j :: 1 <= j < i + 1 ==> s[j] == s[1..][j - 1];
        }
      }
      r
  }

  /** Finding in a filtered sequence is finding the first element satisfying both predicates. */
  lemma {:induction false} FindInFilter<T>(s: seq<T>, p: T -> bool, q: T -> bool, both: T -> bool)
    requires forall x :: both(x) == (p(x) && q(x))
    ensures Find(Filter(s, p), q) == Find(s, both)
  {
    if s != [] {
      FindInFilter(s[1..], p, q, both);
    }
  }
}
