/** The chart projection of the analysis view:
    `Object.entries(counts).map(([name, value]) => ({name, value})).sort(descendingSort)`
    and the `slice(0, 10)` taken for one of its charts. */
module ChartProjection {

  /** One `{name, value}` point of a chart series. */
  datatype Entry = Entry(name: string, value: int)

  /** A category -> count object, as the list of its entries in
      `Object.entries` order. */
  type CategoryCount = seq<(string, int)>

  /** The number of entries the "Commits Per Repo" chart keeps. */
  const CommitsPerRepoLimit: nat := 10

  /** The comparator `descendingSort = (a, b) => b.value - a.value`. It
      orders by value, larger first: the result is positive exactly when `a`
      must follow `b`, negative exactly when `a` must precede `b`, and zero,
      which leaves the pair in its original order, exactly on a tie. */
  function DescendingSort(a: Entry, b: Entry): (r: int)
    ensures r > 0 <==> a.value < b.value
    ensures r < 0 <==> b.value < a.value
    ensures r == 0 <==> a.value == b.value
  {
    b.value - a.value
  }

  /** `Object.entries(counts).map(([name, value]) => ({name, value}))`. */
  function Entries(counts: CategoryCount): (r: seq<Entry>)
    ensures |r| == |counts|
    ensures forall i :: 0 <= i < |r| ==> r[i].name == counts[i].0 && r[i].value == counts[i].1
  {
    if counts == [] then [] else [Entry(counts[0].0, counts[0].1)] + Entries(counts[1..])
  }

  /** No entry sorts after its successor under `descendingSort`. */
  predicate SortedDescending(s: seq<Entry>)
  {
    |s| <= 1 || (DescendingSort(s[0], s[1]) <= 0 && SortedDescending(s[1..]))
  }

  /** The entries of `s` whose value is `v`, in the order of `s`. A sort is
      stable exactly when it keeps every such subsequence. */
  function WithValue(s: seq<Entry>, v: int): (r: seq<Entry>)
    ensures |r| <= |s|
  {
    if s == [] then []
    else if s[0].value == v then [s[0]] + WithValue(s[1..], v)
    else WithValue(s[1..], v)
  }

  /** One step of a stable sort: `x`, which followed every entry of `t` in
      the input, goes after every entry it does not sort before. */
  function Insert(t: seq<Entry>, x: Entry): (r: seq<Entry>)
    ensures |r| == |t| + 1
    ensures r[0] == if t != [] && DescendingSort(t[0], x) <= 0 then t[0] else x
  {
    if t == [] then [x]
    else if DescendingSort(t[0], x) <= 0 then [t[0]] + Insert(t[1..], x)
    else [x] + t
  }

  /** The array sort with `descendingSort`, as a stable insertion sort. */
  function SortDescending(s: seq<Entry>): (r: seq<Entry>)
    ensures |r| == |s|
  {
    if s == [] then [] else Insert(SortDescending(s[..|s| - 1]), s[|s| - 1])
  }

  /** The shared chart series `quarterCommitSlicedData` built from a
      category -> count object: one point per entry, in non-increasing order
      of value, entries of equal value in their `Object.entries` order. */
  function Project(counts: CategoryCount): (r: seq<Entry>)
    ensures |r| == |counts|
    ensures SortedDescending(r)
    ensures forall i, j :: 0 <= i < j < |r| ==> r[i].value >= r[j].value
    ensures multiset(r) == multiset(Entries(counts))
    ensures forall v :: WithValue(r, v) == WithValue(Entries(counts), v)
  {
    var es := Entries(counts);
    SortIsSorted(es);
    SortedPairwise(SortDescending(es));
    SortIsPermutation(es);
    SortIsStable(es);
    SortDescending(es)
  }

  /** `s.slice(0, end)` for a non-negative `end`. */
  function Slice(s: seq<Entry>, end: nat): (r: seq<Entry>)
    ensures |r| == if |s| < end then |s| else end
    ensures r <= s
  {
    if |s| <= end then s else s[..end]
  }

  // ---------------------------------------------------------------------
  // Order

  /** The first entry of a sorted sequence has the largest value. */
  lemma {:induction false} SortedHeadIsMax(t: seq<Entry>)
    requires SortedDescending(t) && t != []
    ensures forall k :: 0 <= k < |t| ==> t[k].value <= t[0].value
  {
    if |t| > 1 {
      SortedHeadIsMax(t[1..]);
      forall k | 1 <= k < |t| ensures t[k].value <= t[0].value {
        assert t[k] == t[1..][k - 1];
      }
    }
  }

  /** Sorted in the adjacent sense means sorted for every pair. */
  lemma {:induction false} SortedPairwise(t: seq<Entry>)
    requires SortedDescending(t)
    ensures forall i, j :: 0 <= i < j < |t| ==> t[i].value >= t[j].value
  {
    if |t| > 1 {
      SortedHeadIsMax(t);
      SortedPairwise(t[1..]);
      forall i, j | 0 < i < j < |t| ensures t[i].value >= t[j].value {
        assert t[i] == t[1..][i - 1] && t[j] == t[1..][j - 1];
      }
    }
  }

  /** Inserting into a sorted sequence keeps it sorted. */
  lemma {:induction false} InsertKeepsSorted(t: seq<Entry>, x: Entry)
    requires SortedDescending(t)
    ensures SortedDescending(Insert(t, x))
  {
    if t != [] && DescendingSort(t[0], x) <= 0 {
      var rest := Insert(t[1..], x);
      InsertKeepsSorted(t[1..], x);
      assert Insert(t, x) == [t[0]] + rest;
      assert ([t[0]] + rest)[1..] == rest;
    }
  }

  /** The sort's result is sorted. */
  lemma {:induction false} SortIsSorted(s: seq<Entry>)
    ensures SortedDescending(SortDescending(s))
  {
    if s != [] {
      SortIsSorted(s[..|s| - 1]);
      InsertKeepsSorted(SortDescending(s[..|s| - 1]), s[|s| - 1]);
    }
  }

  // ---------------------------------------------------------------------
  // Permutation

  lemma {:induction false} InsertIsPermutation(t: seq<Entry>, x: Entry)
    ensures multiset(Insert(t, x)) == multiset(t) + multiset{x}
  {
    if t != [] && DescendingSort(t[0], x) <= 0 {
      InsertIsPermutation(t[1..], x);
      assert t == [t[0]] + t[1..];
      assert Insert(t, x) == [t[0]] + Insert(t[1..], x);
    }
  }

  /** The sort's result is a rearrangement of its input. */
  lemma {:induction false} SortIsPermutation(s: seq<Entry>)
    ensures multiset(SortDescending(s)) == multiset(s)
  {
    if s != [] {
      SortIsPermutation(s[..|s| - 1]);
      InsertIsPermutation(SortDescending(s[..|s| - 1]), s[|s| - 1]);
      assert s == s[..|s| - 1] + [s[|s| - 1]];
    }
  }

  // ---------------------------------------------------------------------
  // Stability

  lemma WithValueCons(h: Entry, rest: seq<Entry>, v: int)
    ensures WithValue([h] + rest, v) == if h.value == v then [h] + WithValue(rest, v) else WithValue(rest, v)
  {
  }

  lemma {:induction false} WithValueAppend(a: seq<Entry>, b: seq<Entry>, v: int)
    ensures WithValue(a + b, v) == WithValue(a, v) + WithValue(b, v)
  {
    if a == [] {
      assert a + b == b;
    } else {
      assert (a + b)[0] == a[0];
      assert (a + b)[1..] == a[1..] + b;
      WithValueAppend(a[1..], b, v);
      if a[0].value == v {
        assert [a[0]] + (WithValue(a[1..], v) + WithValue(b, v))
            == [a[0]] + WithValue(a[1..], v) + WithValue(b, v);
      }
    }
  }

  /** A sorted sequence whose first entry is smaller than `v` holds no entry
      of value `v`. */
  lemma {:induction false} WithValueBelow(t: seq<Entry>, v: int)
    requires SortedDescending(t)
    requires t != [] ==> t[0].value < v
    ensures WithValue(t, v) == []
  {
    if t != [] {
      WithValueBelow(t[1..], v);
    }
  }

  lemma {:induction false} InsertKeepsGroups(t: seq<Entry>, x: Entry, v: int)
    requires SortedDescending(t)
    ensures WithValue(Insert(t, x), v) == WithValue(t, v) + (if x.value == v then [x] else [])
  {
    if t == [] {
      assert Insert(t, x) == [x] + [];
      WithValueCons(x, [], v);
    } else if DescendingSort(t[0], x) <= 0 {
      var h, rest := t[0], Insert(t[1..], x);
      assert Insert(t, x) == [h] + rest;
      InsertKeepsGroups(t[1..], x, v);
      WithValueCons(h, rest, v);
      var tail := if x.value == v then [x] else [];
      if h.value == v {
        assert [h] + (WithValue(t[1..], v) + tail) == [h] + WithValue(t[1..], v) + tail;
      }
    } else {
      assert Insert(t, x) == [x] + t;
      WithValueBelow(t, x.value);
      WithValueCons(x, t, v);
    }
  }

  /** The sort keeps, for every value, the entries of that value in their
      input order. */
  lemma {:induction false} SortIsStable(s: seq<Entry>)
    ensures forall v :: WithValue(SortDescending(s), v) == WithValue(s, v)
  {
    if s != [] {
      var init, last := s[..|s| - 1], s[|s| - 1];
      assert s == init + [last];
      SortIsStable(init);
      SortIsSorted(init);
      forall v ensures WithValue(SortDescending(s), v) == WithValue(s, v) {
        InsertKeepsGroups(SortDescending(init), last, v);
        WithValueAppend(init, [last], v);
        WithValueCons(last, [], v);
        assert [last] + [] == [last];
      }
    }
  }

  // ---------------------------------------------------------------------
  // Uniqueness: any stable descending sort gives the same series

  /** A value occurs in a sorted sequence only at or below its first entry. */
  lemma {:induction false} WithValueAtMostHead(u: seq<Entry>, v: int)
    requires SortedDescending(u)
    requires WithValue(u, v) != []
    ensures u != [] && v <= u[0].value
  {
    if u[0].value != v {
      WithValueAtMostHead(u[1..], v);
    }
  }

  lemma HeadValuePresent(w: seq<Entry>)
    ensures w != [] ==> WithValue(w, w[0].value) != []
  {
  }

  /** Two sorted sequences that agree on every value group are equal. */
  lemma {:induction false} SameGroupsSame(t: seq<Entry>, u: seq<Entry>)
    requires SortedDescending(t) && SortedDescending(u)
    requires forall v :: WithValue(t, v) == WithValue(u, v)
    ensures t == u
    decreases |t|
  {
    if t == [] || u == [] {
      HeadValuePresent(t);
      HeadValuePresent(u);
    } else {
      var a, b := t[0], u[0];
      var ga, gb := WithValue(t[1..], a.value), WithValue(u[1..], b.value);
      assert WithValue(t, a.value) == [a] + ga;
      assert WithValue(u, b.value) == [b] + gb;
      WithValueAtMostHead(u, a.value);
      WithValueAtMostHead(t, b.value);
      assert a.value == b.value;
      assert ([a] + ga)[0] == a && ([b] + gb)[0] == b;
      assert a == b;
      forall v ensures WithValue(t[1..], v) == WithValue(u[1..], v) {
        var x, y := WithValue(t[1..], v), WithValue(u[1..], v);
        assert WithValue(t, v) == WithValue(u, v);
        if a.value == v {
          assert WithValue(t, v) == [a] + x && WithValue(u, v) == [a] + y;
          assert ([a] + x)[1..] == x && ([a] + y)[1..] == y;
        }
      }
      SameGroupsSame(t[1..], u[1..]);
      assert t == [a] + t[1..];
      assert u == [b] + u[1..];
    }
  }

  /** The projection is THE stable descending sort of the entries: any
      series that is sorted by `descendingSort` and keeps every group of
      equal values in input order is exactly `Project(counts)`, whatever
      stable algorithm the JavaScript engine uses. */
  lemma ProjectIsTheStableSort(counts: CategoryCount, t: seq<Entry>)
    requires SortedDescending(t)
    requires forall v :: WithValue(t, v) == WithValue(Entries(counts), v)
    ensures t == Project(counts)
  {
    SameGroupsSame(t, Project(counts));
  }

  /** The truncated series holds the largest values: nothing left out of it
      is larger than anything kept. */
  lemma TruncationKeepsLargest(counts: CategoryCount, end: nat)
    ensures var series := Project(counts);
            forall i, j :: 0 <= i < |Slice(series, end)| <= j < |series| ==> series[j].value <= Slice(series, end)[i].value
  {
  }

  // ---------------------------------------------------------------------
  // Worked examples

  /** A tie keeps its input order: JS stays ahead of Rust, both ahead of
      Go, although Go came first. */
  lemma TieKeepsInputOrder()
    ensures Project([("Go", 80), ("JS", 120), ("Rust", 120)])
         == [Entry("JS", 120), Entry("Rust", 120), Entry("Go", 80)]
  {
    var go, js, rust := Entry("Go", 80), Entry("JS", 120), Entry("Rust", 120);
    var es := Entries([("Go", 80), ("JS", 120), ("Rust", 120)]);
    assert es == [go, js, rust];
    assert es[..2] == [go, js];
    assert [go, js][..1] == [go];
    assert SortDescending([go]) == [go] by {
      assert [go][..0] == [];
    }
    assert Insert([go], js) == [js, go];
    assert SortDescending([go, js]) == [js, go];
    assert Insert([go], rust) == [rust, go] by {
      assert [go][1..] == [];
    }
    assert Insert([js, go], rust) == [js, rust, go] by {
      assert [js, go][1..] == [go];
    }
  }

  /** An input already in order comes out unchanged, and the limit of ten
      keeps all three entries. */
  lemma SortedInputUnchanged()
    ensures Slice(Project([("JS", 120), ("Rust", 120), ("Go", 80)]), CommitsPerRepoLimit)
         == [Entry("JS", 120), Entry("Rust", 120), Entry("Go", 80)]
  {
    var go, js, rust := Entry("Go", 80), Entry("JS", 120), Entry("Rust", 120);
    var fs := Entries([("JS", 120), ("Rust", 120), ("Go", 80)]);
    assert fs == [js, rust, go];
    assert fs[..2] == [js, rust];
    assert [js, rust][..1] == [js];
    assert SortDescending([js]) == [js] by {
      assert [js][..0] == [];
    }
    assert Insert([js], rust) == [js, rust] by {
      assert [js][1..] == [];
    }
    assert SortDescending([js, rust]) == [js, rust];
    assert Insert([rust], go) == [rust, go] by {
      assert [rust][1..] == [];
    }
    assert Insert([js, rust], go) == [js, rust, go] by {
      assert [js, rust][1..] == [rust];
    }
  }
}
