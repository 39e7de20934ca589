/**
 * The filter/sort engine of `applyFilters` (script.js:315-371): a filter
 * callback over the records and a comparator handed to the stable
 * `Array.prototype.sort`.
 */
module Selection {
  import opened Records
  import Text

  /**
   * The values of the four filter controls: the magnitude threshold (already
   * parsed), the depth band, the raw search text and the sort key.
   */
  datatype Criteria = Criteria(minMagnitude: real, depthBand: string, search: string, sortKey: string)

  /** The search text as the filter uses it: lower-cased, then trimmed. */
  function Needle(c: Criteria): string {
    Text.Trim(Text.Lower(c.search))
  }

  /** The depth bands the filter tests; `AnyDepth` imposes no test. */
  datatype DepthBand = AnyDepth | Shallow | Intermediate | Deep

  /**
   * The depth control's value as the filter reads it: `'all'` skips the
   * `switch` and an unknown value matches none of its cases, so both test
   * nothing.
   */
  function ParseDepthBand(v: string): (b: DepthBand)
    ensures b.Shallow? <==> v == "shallow"
    ensures b.Intermediate? <==> v == "intermediate"
    ensures b.Deep? <==> v == "deep"
  {
    if v == "all" then AnyDepth
    else if v == "shallow" then Shallow
    else if v == "intermediate" then Intermediate
    else if v == "deep" then Deep
    else AnyDepth
  }

  /** The cases of the depth `switch` (script.js:327-340), each rejecting out-of-band depths. */
  predicate DepthPasses(band: DepthBand, depth: real) {
    match band
    case AnyDepth => true
    case Shallow => !(depth > 70.0)
    case Intermediate => !(depth <= 70.0 || depth > 300.0)
    case Deep => !(depth <= 300.0)
  }

  /** The filter callback of script.js:322-348, one early `return false` per test. */
  predicate Matches(q: Quake, c: Criteria)
    ensures Matches(q, c) ==> q.magnitude >= c.minMagnitude && DepthPasses(ParseDepthBand(c.depthBand), q.depth)
  {
    if q.magnitude < c.minMagnitude then false
    else if !DepthPasses(ParseDepthBand(c.depthBand), q.depth) then false
    else if Needle(c) != [] && !Text.Includes(Text.Lower(q.location), Needle(c)) then false
    else true
  }

  /**
   * A record is kept exactly when it reaches the threshold, lies in the
   * chosen depth band (boundaries: shallow up to 70 km inclusive,
   * intermediate above 70 up to 300 inclusive, deep above 300) and, for a
   * non-blank search, its lower-cased location contains the search text.
   */
  lemma MatchesIff(q: Quake, c: Criteria)
    ensures Matches(q, c) <==>
      && q.magnitude >= c.minMagnitude
      && (c.depthBand == "shallow" ==> q.depth <= 70.0)
      && (c.depthBand == "intermediate" ==> 70.0 < q.depth <= 300.0)
      && (c.depthBand == "deep" ==> q.depth > 300.0)
      && (Needle(c) == [] || exists i :: Text.OccursAt(Text.Lower(q.location), Needle(c), i))
  {
    Text.IncludesIffOccurs(Text.Lower(q.location), Needle(c));
  }

  /** Every depth falls in exactly one of the three bands. */
  lemma DepthBandsPartition(d: real)
    ensures DepthPasses(Shallow, d) || DepthPasses(Intermediate, d) || DepthPasses(Deep, d)
    ensures !(DepthPasses(Shallow, d) && DepthPasses(Intermediate, d))
    ensures !(DepthPasses(Intermediate, d) && DepthPasses(Deep, d))
    ensures !(DepthPasses(Shallow, d) && DepthPasses(Deep, d))
  {
  }

  /** `r` is `s` with some elements left out, the rest in their order. */
  predicate IsSubsequence<T(==)>(r: seq<T>, s: seq<T>)
    decreases |s|
  {
    if r == [] then true
    else if s == [] then false
    else if r[0] == s[0] then IsSubsequence(r[1..], s[1..])
    else IsSubsequence(r, s[1..])
  }

  /** `earthquakes.filter(callback)`. */
  function Filter(s: seq<Quake>, c: Criteria): (r: seq<Quake>)
    ensures |r| <= |s|
  {
    if s == [] then []
    else (if Matches(s[0], c) then [s[0]] else []) + Filter(s[1..], c)
  }

  /**
   * The filter keeps every matching record as often as it occurs and drops
   * every other one.
   */
  lemma {:induction false} FilterSpec(s: seq<Quake>, c: Criteria)
    ensures forall q :: multiset(Filter(s, c))[q] == if Matches(q, c) then multiset(s)[q] else 0
    ensures forall i :: 0 <= i < |Filter(s, c)| ==> Matches(Filter(s, c)[i], c)
    decreases |s|
  {
    if s != [] {
      FilterSpec(s[1..], c);
      assert s == [s[0]] + s[1..];
    }
  }

  /** The kept records appear in `earthquakes` in the same relative order. */
  lemma {:induction false} FilterIsSubsequence(s: seq<Quake>, c: Criteria)
    ensures IsSubsequence(Filter(s, c), s)
    decreases |s|
  {
    if s != [] {
      var rest := Filter(s[1..], c);
      FilterIsSubsequence(s[1..], c);
      if Matches(s[0], c) {
        assert Filter(s, c) == [s[0]] + rest;
        assert ([s[0]] + rest)[1..] == rest;
      } else {
        assert Filter(s, c) == rest;
        SubsequenceSkip(rest, s);
      }
    }
  }

  /** A subsequence of the tail of `s` is a subsequence of `s`. */
  lemma {:induction false} SubsequenceSkip<T>(r: seq<T>, s: seq<T>)
    requires s != [] && IsSubsequence(r, s[1..])
    ensures IsSubsequence(r, s)
    decreases |s|, 0
  {
    if r != [] && r[0] == s[0] {
      SubsequenceTail(r, s[1..]);
    }
  }

  /** A subsequence stays one after dropping its head. */
  lemma {:induction false} SubsequenceTail<T>(r: seq<T>, s: seq<T>)
    requires r != [] && IsSubsequence(r, s)
    ensures IsSubsequence(r[1..], s)
    decreases |s|, 1
  {
    if r[0] == s[0] {
      SubsequenceSkip(r[1..], s);
    } else {
      SubsequenceTail(r, s[1..]);
      SubsequenceSkip(r[1..], s);
    }
  }

  /** The six orders the sort control offers. */
  datatype SortOrder = TimeDesc | TimeAsc | MagnitudeDesc | MagnitudeAsc | DepthAsc | DepthDesc

  /**
   * The case labels of the comparator's `switch`; "time-desc" and every
   * unknown value take the newest-first branch.
   */
  function ParseSortKey(v: string): (o: SortOrder)
    ensures o.TimeDesc? <==> v !in {"time-asc", "magnitude-desc", "magnitude-asc", "depth-asc", "depth-desc"}
    ensures v == "time-asc" ==> o == TimeAsc
    ensures v == "magnitude-desc" ==> o == MagnitudeDesc
    ensures v == "magnitude-asc" ==> o == MagnitudeAsc
    ensures v == "depth-asc" ==> o == DepthAsc
    ensures v == "depth-desc" ==> o == DepthDesc
  {
    if v == "time-desc" then TimeDesc
    else if v == "time-asc" then TimeAsc
    else if v == "magnitude-desc" then MagnitudeDesc
    else if v == "magnitude-asc" then MagnitudeAsc
    else if v == "depth-asc" then DepthAsc
    else if v == "depth-desc" then DepthDesc
    else TimeDesc
  }

  /**
   * The comparator of script.js:351-368: negative when `a` sorts first. A
   * record's depth is already defaulted to 0, so `depth || 0` is its depth.
   */
  function Compare(o: SortOrder, a: Quake, b: Quake): (r: real)
    ensures r < 0.0 <==> Key(o, a) < Key(o, b)
    ensures r == 0.0 <==> Key(o, a) == Key(o, b)
  {
    match o
    case TimeDesc => (b.time - a.time) as real
    case TimeAsc => (a.time - b.time) as real
    case MagnitudeDesc => b.magnitude - a.magnitude
    case MagnitudeAsc => a.magnitude - b.magnitude
    case DepthAsc => a.depth - b.depth
    case DepthDesc => b.depth - a.depth
  }

  /** The number each order sorts by, ascending. */
  function Key(o: SortOrder, q: Quake): real {
    match o
    case TimeDesc => -(q.time as real)
    case TimeAsc => q.time as real
    case MagnitudeDesc => -q.magnitude
    case MagnitudeAsc => q.magnitude
    case DepthAsc => q.depth
    case DepthDesc => -q.depth
  }

  /** Each comparator is a difference of keys, so it is a consistent total preorder. */
  lemma CompareIsKeyDifference(o: SortOrder, a: Quake, b: Quake)
    ensures Compare(o, a, b) == Key(o, a) - Key(o, b)
  {
  }

  /** The key of an order as a function value, for the generic sorting lemmas. */
  function KeyOf(o: SortOrder): Quake -> real {
    q => Key(o, q)
  }

  /** Ordered by the key: no later element has a smaller key than an earlier one. */
  ghost predicate SortedBy<T>(key: T -> real, s: seq<T>) {
    forall i, j :: 0 <= i < j < |s| ==> key(s[i]) <= key(s[j])
  }

  /** The elements of `s` whose key equals `v`, in their order in `s`. */
  function WithKey<T>(key: T -> real, s: seq<T>, v: real): seq<T>
    decreases |s|
  {
    if s == [] then []
    else (if key(s[0]) == v then [s[0]] else []) + WithKey(key, s[1..], v)
  }

  lemma {:induction false} WithKeyAppend<T>(key: T -> real, a: seq<T>, b: seq<T>, v: real)
    ensures WithKey(key, a + b, v) == WithKey(key, a, v) + WithKey(key, b, v)
    decreases |a|
  {
    if a != [] {
      assert (a + b)[0] == a[0];
      assert (a + b)[1..] == a[1..] + b;
      WithKeyAppend(key, a[1..], b, v);
    } else {
      assert a + b == b;
    }
  }

  /**
   * One step of insertion sort: `x` goes after the last element of `p` whose
   * key is at most its own, the later elements move one place right.
   */
  function Insert<T>(key: T -> real, p: seq<T>, x: T): (r: seq<T>)
    ensures |r| == |p| + 1
    decreases |p|
  {
    if p == [] || key(p[|p| - 1]) <= key(x) then p + [x]
    else Insert(key, p[..|p| - 1], x) + [p[|p| - 1]]
  }

  /** Stable sort: each element goes after the earlier elements it ties with. */
  function SortByKey<T>(key: T -> real, s: seq<T>): (r: seq<T>)
    ensures |r| == |s|
    decreases |s|
  {
    if s == [] then []
    else Insert(key, SortByKey(key, s[..|s| - 1]), s[|s| - 1])
  }

  /** Sorting one more element of a prefix inserts it into the sorted prefix. */
  lemma SortByKeyStep<T>(key: T -> real, s: seq<T>, i: int)
    requires 0 <= i < |s|
    ensures SortByKey(key, s[..i + 1]) == Insert(key, SortByKey(key, s[..i]), s[i])
  {
    assert s[..i + 1][..i] == s[..i];
  }

  /** Inserting adds exactly `x`. */
  lemma {:induction false} InsertPermutes<T>(key: T -> real, p: seq<T>, x: T)
    ensures multiset(Insert(key, p, x)) == multiset(p) + multiset{x}
    decreases |p|
  {
    if p != [] && key(p[|p| - 1]) > key(x) {
      InsertPermutes(key, p[..|p| - 1], x);
      assert p == p[..|p| - 1] + [p[|p| - 1]];
    }
  }

  /** The sort rearranges its input: the result is a permutation of it. */
  lemma {:induction false} SortByKeyPermutes<T>(key: T -> real, s: seq<T>)
    ensures multiset(SortByKey(key, s)) == multiset(s)
    decreases |s|
  {
    if s != [] {
      SortByKeyPermutes(key, s[..|s| - 1]);
      InsertPermutes(key, SortByKey(key, s[..|s| - 1]), s[|s| - 1]);
      assert s == s[..|s| - 1] + [s[|s| - 1]];
    }
  }

  lemma {:induction false} InsertSorted<T>(key: T -> real, p: seq<T>, x: T)
    requires SortedBy(key, p)
    ensures SortedBy(key, Insert(key, p, x))
    decreases |p|
  {
    if p != [] && key(p[|p| - 1]) > key(x) {
      var p', y := p[..|p| - 1], p[|p| - 1];
      InsertSorted(key, p', x);
      InsertPermutes(key, p', x);
      var r' := Insert(key, p', x);
      forall i | 0 <= i < |r'|
        ensures key(r'[i]) <= key(y)
      {
        assert r'[i] in multiset(p') + multiset{x};
        if r'[i] != x {
          var j :| 0 <= j < |p'| && p'[j] == r'[i];
        }
      }
    }
  }

  lemma {:induction false} InsertStable<T>(key: T -> real, p: seq<T>, x: T, v: real)
    ensures WithKey(key, Insert(key, p, x), v) == WithKey(key, p + [x], v)
    decreases |p|
  {
    if p != [] && key(p[|p| - 1]) > key(x) {
      var p', y := p[..|p| - 1], p[|p| - 1];
      InsertStable(key, p', x, v);
      WithKeyAppend(key, Insert(key, p', x), [y], v);
      WithKeyAppend(key, p', [x], v);
      WithKeyAppend(key, p' + [x], [y], v);
      WithKeyAppend(key, p', [y], v);
      WithKeyAppend(key, p' + [y], [x], v);
      assert p + [x] == p' + [y] + [x];
    }
  }

  /**
   * The sorted sequence is in key order and, for every key value, the
   * elements with that key keep their relative input order: a stable sort.
   */
  lemma {:induction false} SortByKeySortedStable<T>(key: T -> real, s: seq<T>)
    ensures SortedBy(key, SortByKey(key, s))
    ensures forall v :: WithKey(key, SortByKey(key, s), v) == WithKey(key, s, v)
    decreases |s|
  {
    if s != [] {
      var s', x := s[..|s| - 1], s[|s| - 1];
      SortByKeySortedStable(key, s');
      InsertSorted(key, SortByKey(key, s'), x);
      forall v
        ensures WithKey(key, SortByKey(key, s), v) == WithKey(key, s, v)
      {
        InsertStable(key, SortByKey(key, s'), x, v);
        WithKeyAppend(key, SortByKey(key, s'), [x], v);
        WithKeyAppend(key, s', [x], v);
        assert s == s' + [x];
      }
    }
  }

  /** In two sorted permutations of each other the last elements have the same key. */
  lemma LastKeysAgree<T>(key: T -> real, r: seq<T>, t: seq<T>)
    requires SortedBy(key, r) && SortedBy(key, t)
    requires multiset(r) == multiset(t) && r != [] && |r| == |t|
    ensures key(r[|r| - 1]) == key(t[|t| - 1])
  {
    var y, z := r[|r| - 1], t[|t| - 1];
    assert z in multiset(r) && y in multiset(t);
    var i :| 0 <= i < |r| && r[i] == z;
    var i' :| 0 <= i' < |t| && t[i'] == y;
  }

  /** `WithKey` of a sequence extended by one element. */
  lemma WithKeySnoc<T>(key: T -> real, a: seq<T>, y: T, v: real)
    ensures WithKey(key, a + [y], v) == WithKey(key, a, v) + (if key(y) == v then [y] else [])
  {
    WithKeyAppend(key, a, [y], v);
  }

  /** A non-empty sequence is its prefix followed by its last element. */
  lemma SplitLast<T>(s: seq<T>)
    requires s != []
    ensures s == s[..|s| - 1] + [s[|s| - 1]]
  {
  }

  /** Appending one element is injective. */
  lemma SnocInjective<T>(a: seq<T>, y: T, b: seq<T>, z: T)
    requires a + [y] == b + [z]
    ensures a == b && y == z
  {
    assert |a| == |b|;
    assert y == (a + [y])[|a|] && z == (b + [z])[|b|];
    assert a == (a + [y])[..|a|] && b == (b + [z])[..|b|];
  }

  /**
   * Dropping the last elements of two sequences whose last keys agree and
   * whose subsequences of key `v` agree: those of the rests still agree,
   * and for `v` the key of the last elements, the last elements are equal.
   */
  lemma WithKeyDropLast<T>(key: T -> real, r: seq<T>, t: seq<T>, v: real)
    requires r != [] && t != []
    requires key(r[|r| - 1]) == key(t[|t| - 1])
    requires WithKey(key, r, v) == WithKey(key, t, v)
    ensures WithKey(key, r[..|r| - 1], v) == WithKey(key, t[..|t| - 1], v)
    ensures v == key(r[|r| - 1]) ==> r[|r| - 1] == t[|t| - 1]
  {
    var r', y, t', z := r[..|r| - 1], r[|r| - 1], t[..|t| - 1], t[|t| - 1];
    SplitLast(r);
    SplitLast(t);
    WithKeySnoc(key, r', y, v);
    WithKeySnoc(key, t', z, v);
    var a, b := WithKey(key, r', v), WithKey(key, t', v);
    if v == key(y) {
      assert a + [y] == b + [z];
      SnocInjective(a, y, b, z);
    } else {
      assert a + [] == a && b + [] == b;
    }
  }

  /** A prefix of a sorted sequence is sorted. */
  lemma SortedPrefix<T>(key: T -> real, r: seq<T>, n: int)
    requires SortedBy(key, r) && 0 <= n <= |r|
    ensures SortedBy(key, r[..n])
  {
  }

  /** Permutations of each other with the same last element stay so without it. */
  lemma PermutationDropLast<T>(r: seq<T>, t: seq<T>)
    requires r != [] && t != [] && r[|r| - 1] == t[|t| - 1]
    requires multiset(r) == multiset(t)
    ensures multiset(r[..|r| - 1]) == multiset(t[..|t| - 1])
  {
    var r', t', y := r[..|r| - 1], t[..|t| - 1], r[|r| - 1];
    assert r == r' + [y];
    assert t == t' + [y];
    assert multiset(r') + multiset{y} == multiset(t') + multiset{y};
    forall x
      ensures multiset(r')[x] == multiset(t')[x]
    {
      assert (multiset(r') + multiset{y})[x] == (multiset(t') + multiset{y})[x];
    }
  }

  /** Two sorted permutations of each other with the same per-key order are equal. */
  lemma {:induction false} SortedStableEqual<T>(key: T -> real, r: seq<T>, t: seq<T>)
    requires SortedBy(key, r) && SortedBy(key, t)
    requires multiset(r) == multiset(t)
    requires forall v :: WithKey(key, r, v) == WithKey(key, t, v)
    ensures r == t
    decreases |r|
  {
    assert |r| == |multiset(r)| == |multiset(t)| == |t|;
    if r != [] {
      var n := |r|;
      var r', t' := r[..n - 1], t[..n - 1];
      LastKeysAgree(key, r, t);
      forall v
        ensures WithKey(key, r', v) == WithKey(key, t', v)
      {
        WithKeyDropLast(key, r, t, v);
      }
      WithKeyDropLast(key, r, t, key(r[n - 1]));
      PermutationDropLast(r, t);
      SortedPrefix(key, r, n - 1);
      SortedPrefix(key, t, n - 1);
      SortedStableEqual(key, r', t');
      SplitLast(r);
      SplitLast(t);
    }
  }

  /**
   * A stable sort has only one possible result: every sorted permutation of
   * `s` that keeps the order of equal-key elements is `SortByKey(key, s)`,
   * whatever algorithm produced it.
   */
  lemma StableSortIsUnique<T>(key: T -> real, s: seq<T>, r: seq<T>)
    requires SortedBy(key, r)
    requires multiset(r) == multiset(s)
    requires forall v :: WithKey(key, r, v) == WithKey(key, s, v)
    ensures r == SortByKey(key, s)
  {
    SortByKeySortedStable(key, s);
    SortByKeyPermutes(key, s);
    SortedStableEqual(key, r, SortByKey(key, s));
  }

  /**
   * Where `Insert` puts `x`: at the index `j` such that every element from
   * `j` on has a larger key and the one before `j`, if any, does not.
   */
  lemma {:induction false} InsertAt<T>(key: T -> real, p: seq<T>, x: T, j: int)
    requires 0 <= j <= |p|
    requires forall m :: j <= m < |p| ==> key(p[m]) > key(x)
    requires j == 0 || key(p[j - 1]) <= key(x)
    ensures Insert(key, p, x) == p[..j] + [x] + p[j..]
    decreases |p|
  {
    if j < |p| {
      var p', y := p[..|p| - 1], p[|p| - 1];
      assert key(y) > key(x);
      assert Insert(key, p, x) == Insert(key, p', x) + [y];
      assert forall m :: j <= m < |p'| ==> p'[m] == p[m];
      assert j > 0 ==> p'[j - 1] == p[j - 1];
      InsertAt(key, p', x, j);
      assert p'[..j] == p[..j];
      assert p'[j..] + [y] == p[j..];
    } else {
      assert p[..j] == p;
    }
  }

  /** After the shift, the prefix is `p` with `x` spliced in at `j`. */
  lemma ShiftedIsSplice<T>(b: seq<T>, p: seq<T>, x: T, j: int)
    requires |b| == |p| + 1 && 0 <= j <= |p|
    requires forall m :: 0 <= m < j ==> b[m] == p[m]
    requires b[j] == x
    requires forall m :: j < m < |b| ==> b[m] == p[m - 1]
    ensures b == p[..j] + [x] + p[j..]
  {
    var r := p[..j] + [x] + p[j..];
    forall m | 0 <= m < |b|
      ensures b[m] == r[m]
    {
      if m < j {
        assert r[m] == p[m];
      } else if m > j {
        assert r[m] == p[m - 1];
      }
    }
  }

  /**
   * The inner loop of insertion sort: the elements left of index `i` that
   * the comparator puts after `x` move one place right; `j` is the hole
   * they leave.
   */
  method ShiftLarger(o: SortOrder, a: array<Quake>, i: int, x: Quake) returns (j: int)
    requires 0 <= i < a.Length
    modifies a
    ensures 0 <= j <= i
    ensures forall m :: 0 <= m < j ==> a[m] == old(a[m])
    ensures forall m :: j < m <= i ==> a[m] == old(a[m - 1])
    ensures forall m :: i < m < a.Length ==> a[m] == old(a[m])
    ensures forall m :: j <= m < i ==> Key(o, old(a[m])) > Key(o, x)
    ensures j == 0 || Key(o, old(a[j - 1])) <= Key(o, x)
  {
    j := i;
    while j > 0 && Compare(o, a[j - 1], x) > 0.0
      invariant 0 <= j <= i
      invariant forall m :: 0 <= m < j ==> a[m] == old(a[m])
      invariant forall m :: j < m <= i ==> a[m] == old(a[m - 1])
      invariant forall m :: i < m < a.Length ==> a[m] == old(a[m])
      invariant forall m :: j <= m < i ==> Key(o, old(a[m])) > Key(o, x)
    {
      CompareIsKeyDifference(o, a[j - 1], x);
      assert a[j - 1] == old(a[j - 1]);
      a[j] := a[j - 1];
      j := j - 1;
    }
    if j > 0 {
      CompareIsKeyDifference(o, a[j - 1], x);
    }
  }

  /** One outer step of insertion sort: `a[i]` is inserted into the sorted prefix. */
  method InsertInPlace(o: SortOrder, a: array<Quake>, i: int)
    requires 0 <= i < a.Length
    modifies a
    ensures a[..i + 1] == Insert(KeyOf(o), old(a[..i]), old(a[i]))
    ensures forall m :: i < m < a.Length ==> a[m] == old(a[m])
  {
    ghost var p := a[..i];
    var x := a[i];
    var j := ShiftLarger(o, a, i, x);
    a[j] := x;
    InsertAt(KeyOf(o), p, x, j);
    ShiftedIsSplice(a[..i + 1], p, x, j);
  }

  /** `array.sort(comparator)` on the filtered records, in place, by insertion sort. */
  method SortInPlace(o: SortOrder, a: array<Quake>)
    modifies a
    ensures a[..] == SortByKey(KeyOf(o), old(a[..]))
  {
    ghost var s := a[..];
    var i := 0;
    while i < a.Length
      invariant 0 <= i <= a.Length
      invariant a[..i] == SortByKey(KeyOf(o), s[..i])
      invariant forall m :: i <= m < a.Length ==> a[m] == s[m]
    {
      assert a[i] == s[i];
      InsertInPlace(o, a, i);
      SortByKeyStep(KeyOf(o), s, i);
      i := i + 1;
    }
    assert s[..a.Length] == s;
  }

  /** `applyFilters` without its rendering: filter, then stable sort. */
  function Select(s: seq<Quake>, c: Criteria): (r: seq<Quake>)
    ensures |r| <= |s|
  {
    SortByKey(KeyOf(ParseSortKey(c.sortKey)), Filter(s, c))
  }

  /**
   * The selection is a permutation of exactly the matching records, ordered
   * by the comparator, ties in feed order.
   */
  lemma {:induction false} SelectSpec(s: seq<Quake>, c: Criteria)
    ensures forall q :: multiset(Select(s, c))[q] == if Matches(q, c) then multiset(s)[q] else 0
    ensures SortedBy(KeyOf(ParseSortKey(c.sortKey)), Select(s, c))
    ensures forall v :: WithKey(KeyOf(ParseSortKey(c.sortKey)), Select(s, c), v)
                     == WithKey(KeyOf(ParseSortKey(c.sortKey)), Filter(s, c), v)
  {
    FilterSpec(s, c);
    SortByKeySortedStable(KeyOf(ParseSortKey(c.sortKey)), Filter(s, c));
    SortByKeyPermutes(KeyOf(ParseSortKey(c.sortKey)), Filter(s, c));
  }
}
