/** The list operations the pages apply to their id and filter lists:
    `Array.prototype.filter`, and the `includes`-then-filter-or-append toggle. */
module Lists {

  /** `s.filter(p)`: the elements of `s` that satisfy `p`, in their original order. */
  function Filter<T(!new)>(s: seq<T>, p: T -> bool): (r: seq<T>)
    ensures |r| <= |s|
    ensures forall x :: x in r <==> x in s && p(x)
  {
    if s == [] then []
    else if p(s[0]) then [s[0]] + Filter(s[1..], p)
    else Filter(s[1..], p)
  }

  /** Filtering distributes over concatenation: the survivors keep their relative order. */
  lemma {:induction false} FilterAppend<T(!new)>(a: seq<T>, b: seq<T>, p: T -> bool)
    ensures Filter(a + b, p) == Filter(a, p) + Filter(b, p)
  {
    if a == [] {
      assert a + b == b;
    } else {
      assert (a + b)[0] == a[0];
      assert (a + b)[1..] == a[1..] + b;
      FilterAppend(a[1..], b, p);
    }
  }

  /** A filter that every element passes returns the list itself. */
  lemma {:induction false} FilterKeepsAll<T(!new)>(s: seq<T>, p: T -> bool)
    requires forall x :: x in s ==> p(x)
    ensures Filter(s, p) == s
  {
    if s != [] {
      assert forall x :: x in s[1..] ==> x in s;
      FilterKeepsAll(s[1..], p);
    }
  }

  /** Filtering twice with the same predicate is filtering once. */
  lemma FilterIdempotent<T(!new)>(s: seq<T>, p: T -> bool)
    ensures Filter(Filter(s, p), p) == Filter(s, p)
  {
    FilterKeepsAll(Filter(s, p), p);
  }

  /** Two predicates that agree on every element filter alike. */
  lemma {:induction false} FilterSamePredicate<T(!new)>(s: seq<T>, p: T -> bool, q: T -> bool)
    requires forall x :: x in s ==> p(x) == q(x)
    ensures Filter(s, p) == Filter(s, q)
  {
    if s != [] {
      FilterSamePredicate(s[1..], p, q);
    }
  }

  /** No element occurs twice. */
  predicate NoDup<T(==,!new)>(s: seq<T>) {
    forall i, j :: 0 <= i < j < |s| ==> s[i] != s[j]
  }

  /** Filtering never introduces a duplicate. */
  lemma {:induction false} FilterNoDup<T(!new)>(s: seq<T>, p: T -> bool)
    requires NoDup(s)
    ensures NoDup(Filter(s, p))
  {
    if s != [] {
      assert NoDup(s[1..]) by {
        forall i, j | 0 <= i < j < |s[1..]| ensures s[1..][i] != s[1..][j] {
          assert s[1..][i] == s[i + 1] && s[1..][j] == s[j + 1];
        }
      }
      FilterNoDup(s[1..], p);
      if p(s[0]) {
        var rest := Filter(s[1..], p);
        assert s[0] !in rest by {
          forall k | 0 <= k < |s[1..]| ensures s[1..][k] != s[0] {
            assert s[1..][k] == s[k + 1];
          }
        }
        var r := [s[0]] + rest;
        forall i, j | 0 <= i < j < |r| ensures r[i] != r[j] {
          if i == 0 {
            assert r[j] == rest[j - 1];
          } else {
            assert r[i] == rest[i - 1] && r[j] == rest[j - 1];
          }
        }
      }
    }
  }

  /** `s.filter(y => y !== x)`: every occurrence of `x` dropped, the rest kept in order. */
  function Without<T(==,!new)>(s: seq<T>, x: T): (r: seq<T>)
    ensures x !in r
    ensures forall y :: y != x ==> (y in r <==> y in s)
  {
    Filter(s, y => y != x)
  }

  /** Dropping an absent value changes nothing. */
  lemma WithoutAbsent<T(!new)>(s: seq<T>, x: T)
    requires x !in s
    ensures Without(s, x) == s
  {
    FilterKeepsAll(s, y => y != x);
  }

  /** Dropping a value twice is dropping it once. */
  lemma WithoutIdempotent<T(!new)>(s: seq<T>, x: T)
    ensures Without(Without(s, x), x) == Without(s, x)
  {
    WithoutAbsent(Without(s, x), x);
  }

  /** In a duplicate-free list, dropping a present value shortens the list by exactly one. */
  lemma {:induction false} WithoutLength<T(!new)>(s: seq<T>, x: T)
    requires NoDup(s) && x in s
    ensures |Without(s, x)| == |s| - 1
  {
    assert NoDup(s[1..]) by {
      forall i, j | 0 <= i < j < |s[1..]| ensures s[1..][i] != s[1..][j] {
        assert s[1..][i] == s[i + 1] && s[1..][j] == s[j + 1];
      }
    }
    if s[0] == x {
      assert x !in s[1..] by {
        forall k | 0 <= k < |s[1..]| ensures s[1..][k] != x {
          assert s[1..][k] == s[k + 1];
        }
      }
      WithoutAbsent(s[1..], x);
    } else {
      assert x in s[1..] by {
        var k :| 0 <= k < |s| && s[k] == x;
        assert s[1..][k - 1] == x;
      }
      WithoutLength(s[1..], x);
    }
  }

  /** The selection toggle: drop `x` when it is selected, otherwise append it at the end. */
  function Toggle<T(==,!new)>(s: seq<T>, x: T): (r: seq<T>)
    ensures x in r <==> x !in s
    ensures forall y :: y != x ==> (y in r <==> y in s)
    ensures x in s ==> r == Without(s, x)
    ensures x !in s ==> r == s + [x]
  {
    if x in s then Without(s, x) else s + [x]
  }

  /** The toggle keeps a selection duplicate-free. */
  lemma ToggleNoDup<T(!new)>(s: seq<T>, x: T)
    requires NoDup(s)
    ensures NoDup(Toggle(s, x))
  {
    if x in s {
      FilterNoDup(s, y => y != x);
    }
  }

  /** Toggling an unselected value twice restores the list exactly. (Toggling a selected
      value twice moves it to the end, so it restores the same members, not the order.) */
  lemma ToggleTwiceAbsent<T(!new)>(s: seq<T>, x: T)
    requires x !in s
    ensures Toggle(Toggle(s, x), x) == s
  {
    FilterAppend(s, [x], y => y != x);
    WithoutAbsent(s, x);
    assert Filter([x], y => y != x) == [];
  }

  /** The capped toggle of the onboarding pages: drop `x` when selected, otherwise
      append it only while fewer than `cap` values are selected. */
  function ToggleAtMost<T(==,!new)>(s: seq<T>, x: T, cap: nat): (r: seq<T>)
    ensures |s| <= cap ==> |r| <= cap
    ensures x in s ==> r == Without(s, x)
    ensures x !in s && |s| < cap ==> r == s + [x]
    ensures x !in s && |s| >= cap ==> r == s
  {
    if x in s then Without(s, x) else if |s| < cap then s + [x] else s
  }

  /** The capped toggle keeps a selection duplicate-free. */
  lemma ToggleAtMostNoDup<T(!new)>(s: seq<T>, x: T, cap: nat)
    requires NoDup(s)
    ensures NoDup(ToggleAtMost(s, x, cap))
  {
    if x in s {
      FilterNoDup(s, y => y != x);
    }
  }

  /** A duplicate-free list has as many members as elements. */
  lemma {:induction false} NoDupCardinality<T(!new)>(s: seq<T>)
    requires NoDup(s)
    ensures |set x | x in s| == |s|
  {
    if s != [] {
      assert NoDup(s[1..]) by {
        forall i, j | 0 <= i < j < |s[1..]| ensures s[1..][i] != s[1..][j] {
          assert s[1..][i] == s[i + 1] && s[1..][j] == s[j + 1];
        }
      }
      NoDupCardinality(s[1..]);
      assert s[0] !in s[1..] by {
        forall k | 0 <= k < |s[1..]| ensures s[1..][k] != s[0] {
          assert s[1..][k] == s[k + 1];
        }
      }
      assert (set x | x in s) == {s[0]} + (set x | x in s[1..]);
    }
  }

  /** A subset is no larger than its superset. */
  lemma {:induction false} SubsetCardinality<T>(small: set<T>, big: set<T>)
    requires small <= big
    ensures |small| <= |big|
  {
    if small != {} {
      var x :| x in small;
      SubsetCardinality(small - {x}, big - {x});
    }
  }
}
