/** Small list utilities the scripts rely on implicitly: Python's `list.count`,
    list concatenation of nested lists, `pandas.unique` / dictionary key order
    (first occurrence wins), and `[x for _ in range(n)]`. */
module Seqs {

  /** All elements pairwise different. */
  predicate Distinct<T(==)>(s: seq<T>) {
    forall i, j :: 0 <= i < j < |s| ==> s[i] != s[j]
  }

  /** Number of occurrences of `x` in `s` (Python's `list.count`). */
  function Occ<T(==)>(s: seq<T>, x: T): (n: nat)
    ensures n <= |s|
    ensures n == 0 <==> x !in s
  {
    if s == [] then 0 else Occ(s[..|s| - 1], x) + (if s[|s| - 1] == x then 1 else 0)
  }

  lemma {:induction false} OccConcat<T>(a: seq<T>, b: seq<T>, x: T)
    ensures Occ(a + b, x) == Occ(a, x) + Occ(b, x)
    decreases |b|
  {
    if b == [] {
      assert a + b == a;
    } else {
      assert (a + b)[..|a + b| - 1] == a + b[..|b| - 1];
      OccConcat(a, b[..|b| - 1], x);
    }
  }

  /** In a list without repetitions every member occurs exactly once. */
  lemma {:induction false} OccDistinct<T>(s: seq<T>, x: T)
    requires Distinct(s)
    ensures Occ(s, x) == if x in s then 1 else 0
    decreases |s|
  {
    if s != [] {
      var init := s[..|s| - 1];
      assert Distinct(init);
      OccDistinct(init, x);
      if s[|s| - 1] == x {
        assert x !in init;
      }
    }
  }

  /** The concatenation of a list of lists. */
  function Flatten<T>(ss: seq<seq<T>>): (r: seq<T>)
  {
    if ss == [] then [] else Flatten(ss[..|ss| - 1]) + ss[|ss| - 1]
  }

  lemma FlattenSnoc<T>(ss: seq<seq<T>>, s: seq<T>)
    ensures Flatten(ss + [s]) == Flatten(ss) + s
  {
    assert (ss + [s])[..|ss|] == ss;
  }

  /** Every element of an inner list is an element of the flattening. */
  lemma {:induction false} FlattenContains<T>(ss: seq<seq<T>>, t: nat, k: nat)
    requires t < |ss| && k < |ss[t]|
    ensures ss[t][k] in Flatten(ss)
    decreases |ss|
  {
    if t < |ss| - 1 {
      FlattenContains(ss[..|ss| - 1], t, k);
    }
  }

  /** Replacing the last inner list by an extension of it extends the flattening. */
  lemma FlattenExtendLast<T>(ss: seq<seq<T>>, x: T)
    requires ss != []
    ensures Flatten(ss[..|ss| - 1] + [ss[|ss| - 1] + [x]]) == Flatten(ss) + [x]
  {
    FlattenSnoc(ss[..|ss| - 1], ss[|ss| - 1] + [x]);
  }

  /** `[x for _ in range(n)]`: empty when `n` is zero or negative. */
  function Repeat<T>(x: T, n: int): (r: seq<T>)
    ensures |r| == if n <= 0 then 0 else n
    ensures forall i :: 0 <= i < |r| ==> r[i] == x
  {
    if n <= 0 then [] else Repeat(x, n - 1) + [x]
  }

  /** In a list whose every element is `x`, `y` occurs at every position
      or at none. */
  lemma {:induction false} OccConstant<T>(s: seq<T>, x: T, y: T)
    requires forall i :: 0 <= i < |s| ==> s[i] == x
    ensures Occ(s, y) == if x == y then |s| else 0
    decreases |s|
  {
    if s != [] {
      OccConstant(s[..|s| - 1], x, y);
    }
  }

  lemma OccRepeat<T>(x: T, n: nat, y: T)
    ensures Occ(Repeat(x, n), y) == if x == y then n else 0
  {
    OccConstant(Repeat(x, n), x, y);
  }

  /** The members of `s` in order of first occurrence: what `pandas.unique`
      returns, and the key order of a dictionary built by inserting `s`. */
  function Unique<T(==)>(s: seq<T>): seq<T>
  {
    if s == [] then []
    else
      var u := Unique(s[..|s| - 1]);
      if s[|s| - 1] in u then u else u + [s[|s| - 1]]
  }

  /** `Unique` keeps every member once and adds nothing. */
  lemma {:induction false} UniqueMembers<T>(s: seq<T>)
    ensures Distinct(Unique(s))
    ensures forall x :: x in Unique(s) <==> x in s
    decreases |s|
  {
    if s != [] {
      var init := s[..|s| - 1];
      UniqueMembers(init);
      assert forall x :: x in s <==> x in init || x == s[|s| - 1];
    }
  }

  /** A list without repetitions has as many members as elements. */
  lemma {:induction false} DistinctCard<T>(s: seq<T>)
    requires Distinct(s)
    ensures |set x | x in s| == |s|
    decreases |s|
  {
    if s != [] {
      var init, last := s[..|s| - 1], s[|s| - 1];
      assert Distinct(init);
      DistinctCard(init);
      assert last !in init;
      assert (set x | x in s) == (set x | x in init) + {last};
    }
  }

  /** A list of lists each of length `n` flattens to `n` times as many elements. */
  lemma {:induction false} FlattenUniform<T>(ss: seq<seq<T>>, n: nat)
    requires forall i :: 0 <= i < |ss| ==> |ss[i]| == n
    ensures |Flatten(ss)| == |ss| * n
    decreases |ss|
  {
    if ss != [] {
      var init := ss[..|ss| - 1];
      FlattenUniform(init, n);
      assert |Flatten(ss)| == |init| * n + n;
    }
  }

  /** `[x for x in s if keep(x)]`. */
  function Filter<T>(s: seq<T>, keep: T -> bool): (r: seq<T>)
    ensures |r| <= |s|
  {
    if s == [] then []
    else Filter(s[..|s| - 1], keep) + (if keep(s[|s| - 1]) then [s[|s| - 1]] else [])
  }

  /** The filtered list holds exactly the accepted elements. */
  lemma {:induction false} FilterMembers<T>(s: seq<T>, keep: T -> bool)
    ensures forall x :: x in Filter(s, keep) <==> x in s && keep(x)
    decreases |s|
  {
    if s != [] {
      var init, last := s[..|s| - 1], s[|s| - 1];
      FilterMembers(init, keep);
      assert forall x :: x in s <==> x in init || x == last;
    }
  }

  /** `[f(x) for x in s if keep(x)]`, as a loop that appends builds it. */
  function FilterMap<T, U>(s: seq<T>, keep: T -> bool, f: T -> U): seq<U>
  {
    if s == [] then []
    else FilterMap(s[..|s| - 1], keep, f) + (if keep(s[|s| - 1]) then [f(s[|s| - 1])] else [])
  }

  /** Element `i` of the result is `f` of the `i`-th accepted element. */
  lemma {:induction false} FilterMapAt<T, U>(s: seq<T>, keep: T -> bool, f: T -> U)
    ensures |FilterMap(s, keep, f)| == |Filter(s, keep)|
    ensures forall i :: 0 <= i < |Filter(s, keep)| ==> FilterMap(s, keep, f)[i] == f(Filter(s, keep)[i])
    decreases |s|
  {
    if s != [] {
      FilterMapAt(s[..|s| - 1], keep, f);
    }
  }

  /** Every element of the result is `f` of an accepted element. */
  lemma {:induction false} FilterMapFrom<T, U>(s: seq<T>, keep: T -> bool, f: T -> U)
    ensures forall y :: y in FilterMap(s, keep, f) ==> exists x :: x in s && keep(x) && y == f(x)
    decreases |s|
  {
    if s != [] {
      var init, last := s[..|s| - 1], s[|s| - 1];
      FilterMapFrom(init, keep, f);
      forall y | y in FilterMap(s, keep, f)
        ensures exists x :: x in s && keep(x) && y == f(x)
      {
        if y in FilterMap(init, keep, f) {
          var x :| x in init && keep(x) && y == f(x);
          assert x in s;
        } else {
          assert last in s;
        }
      }
    }
  }

  /** `[f(x) for x in s]`, as a loop that appends builds it. */
  function Map<T, U>(s: seq<T>, f: T -> U): (r: seq<U>)
    ensures |r| == |s|
  {
    if s == [] then [] else Map(s[..|s| - 1], f) + [f(s[|s| - 1])]
  }

  lemma MapSnoc<T, U>(s: seq<T>, x: T, f: T -> U)
    ensures Map(s + [x], f) == Map(s, f) + [f(x)]
  {
    assert (s + [x])[..|s|] == s;
  }

  /** Element `i` of the result is `f` of element `i`. */
  lemma {:induction false} MapAt<T, U>(s: seq<T>, f: T -> U)
    ensures forall i :: 0 <= i < |s| ==> Map(s, f)[i] == f(s[i])
    decreases |s|
  {
    if s != [] {
      MapAt(s[..|s| - 1], f);
    }
  }
}
