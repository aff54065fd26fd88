/**
  The d3-array reductions the charts use to derive domains from their data:
  `min`, `max` and `extent` over a non-empty list of numbers, and the
  two-element `[first, last]` arrays that d3 scales take as domains and ranges.
 */
module Extents {

  /** A d3 domain or range `[first, last]`; a range may run backwards (`[318, 24]`). */
  datatype Span = Span(first: real, last: real)

  /** True when `v` lies between the ends of an increasing span. */
  predicate Within(s: Span, v: real) {
    s.first <= v <= s.last
  }

  /** `d3.max`: the largest value, scanning left to right and keeping a strictly larger one. */
  function Max(s: seq<real>): (m: real)
    requires |s| > 0
    ensures m in s
    ensures forall i :: 0 <= i < |s| ==> s[i] <= m
    decreases |s|
  {
    if |s| == 1 then s[0]
    else
      var m := Max(s[..|s| - 1]);
      if s[|s| - 1] > m then s[|s| - 1] else m
  }

  /** `d3.min`: the smallest value, scanning left to right and keeping a strictly smaller one. */
  function Min(s: seq<real>): (m: real)
    requires |s| > 0
    ensures m in s
    ensures forall i :: 0 <= i < |s| ==> m <= s[i]
    decreases |s|
  {
    if |s| == 1 then s[0]
    else
      var m := Min(s[..|s| - 1]);
      if s[|s| - 1] < m then s[|s| - 1] else m
  }

  /** `d3.extent`: `[min, max]` of the values; an ordered span holding every value. */
  function Extent(s: seq<real>): (e: Span)
    requires |s| > 0
    ensures e.first <= e.last
    ensures e.first in s && e.last in s
    ensures forall i :: 0 <= i < |s| ==> Within(e, s[i])
  {
    Span(Min(s), Max(s))
  }

  /**
    `d3.extent(data, accessor)`: the extent of `key` over the records. Both
    ends are keys of some record, and every record's key lies between them.
   */
  function ExtentBy<T>(data: seq<T>, key: T -> real): (e: Span)
    requires |data| > 0
    ensures e.first <= e.last
    ensures exists i :: 0 <= i < |data| && key(data[i]) == e.first
    ensures exists j :: 0 <= j < |data| && key(data[j]) == e.last
    ensures forall i :: 0 <= i < |data| ==> Within(e, key(data[i]))
  {
    var vs := seq(|data|, i requires 0 <= i < |data| => key(data[i]));
    var e := Extent(vs);
    assert forall i :: 0 <= i < |data| ==> Within(e, key(data[i])) by {
      forall i | 0 <= i < |data| ensures Within(e, key(data[i])) {
        assert Within(e, vs[i]);
      }
    }
    assert exists i :: 0 <= i < |data| && key(data[i]) == e.first by {
      var i :| 0 <= i < |vs| && vs[i] == e.first;
    }
    assert exists j :: 0 <= j < |data| && key(data[j]) == e.last by {
      var j :| 0 <= j < |vs| && vs[j] == e.last;
    }
    e
  }
}
