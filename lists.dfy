/**
 * The array operations the components use (`find`, `filter`, and
 * `filter(...).length`), each with its meaning stated as a contract.
 */
module Lists {
  import opened Wrappers

  /** `Array.prototype.find`: the first element satisfying `p`, if there is one. */
  function Find<T>(s: seq<T>, p: T -> bool): (r: Option<T>)
    ensures r.None? <==> forall i :: 0 <= i < |s| ==> !p(s[i])
    ensures r.Some? ==> exists i :: 0 <= i < |s| && FirstMatchAt(s, p, i) && s[i] == r.value
  {
    if |s| == 0 then None
    else if p(s[0]) then
      assert FirstMatchAt(s, p, 0);
      Some(s[0])
    else
      var r := Find(s[1..], p);
      if r.Some? then
        FirstMatchShift(s, p, r.value);
        r
      else
        assert forall i :: 1 <= i < |s| ==> s[i] == s[1..][i - 1];
        r
  }

  /** A first match in the tail is a first match in `s` when `s[0]` does not match. */
  lemma FirstMatchShift<T>(s: seq<T>, p: T -> bool, v: T)
    requires |s| > 0 && !p(s[0])
    requires exists k :: 0 <= k < |s| - 1 && FirstMatchAt(s[1..], p, k) && s[1..][k] == v
    ensures exists i :: 0 <= i < |s| && FirstMatchAt(s, p, i) && s[i] == v
  {
    var k :| 0 <= k < |s| - 1 && FirstMatchAt(s[1..], p, k) && s[1..][k] == v;
    assert FirstMatchAt(s, p, k + 1);
  }

  /** Index `i` holds the first element of `s` that satisfies `p`. */
  ghost predicate FirstMatchAt<T>(s: seq<T>, p: T -> bool, i: int)
  {
    0 <= i < |s| && p(s[i]) && forall j :: 0 <= j < i ==> !p(s[j])
  }

  /** `Array.prototype.filter`: the elements satisfying `p`, in their order. */
  function Filter<T>(s: seq<T>, p: T -> bool): (r: seq<T>)
    ensures |r| <= |s|
    ensures forall i :: 0 <= i < |r| ==> r[i] in s && p(r[i])
    ensures forall i :: 0 <= i < |s| && p(s[i]) ==> s[i] in r
  {
    if |s| == 0 then []
    else
      var init := s[..|s| - 1];
      assert s == init + [s[|s| - 1]];
      Filter(init, p) + (if p(s[|s| - 1]) then [s[|s| - 1]] else [])
  }

  /** The positions of `s` whose element satisfies `p`; an independent
      description of what `filter(p).length` counts. */
  ghost function IndicesWhere<T>(s: seq<T>, p: T -> bool): set<int>
  {
    set i | 0 <= i < |s| && p(s[i])
  }

  /** `s.filter(p).length` is the number of positions satisfying `p`. */
  lemma {:induction false} FilterLengthIsCount<T>(s: seq<T>, p: T -> bool)
    ensures |Filter(s, p)| == |IndicesWhere(s, p)|
  {
    if |s| > 0 {
      var n := |s| - 1;
      var init := s[..n];
      FilterLengthIsCount(init, p);
      var before := IndicesWhere(init, p);
      var after := IndicesWhere(s, p);
      assert forall i :: 0 <= i < n ==> init[i] == s[i];
      assert forall i :: i in after <==> i in before || (i == n && p(s[n]));
      if p(s[n]) {
        assert after == before + {n};
      } else {
        assert after == before;
      }
    }
  }

  /** The filter is non-empty exactly when some element satisfies `p`. */
  lemma FilterNonEmptyIff<T>(s: seq<T>, p: T -> bool)
    ensures |Filter(s, p)| > 0 <==> exists i :: 0 <= i < |s| && p(s[i])
  {
    var r := Filter(s, p);
    if |r| > 0 {
      assert r[0] in r;
    } else {
      forall i | 0 <= i < |s| ensures !p(s[i]) {
        assert s[i] in s;
      }
    }
  }
}
