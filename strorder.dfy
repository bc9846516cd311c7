/**
 Python's ordering of `str` values, as `sorted` uses it: lexicographic on code
 points, a proper prefix coming before any of its extensions. `SortedSet` is
 `sorted` applied to the keys of a dict.
 */
module StrOrder {

  /** `a < b` on Python strings. */
  predicate Less(a: string, b: string)
    decreases |a|
  {
    if |a| == 0 then |b| > 0
    else if |b| == 0 then false
    else if a[0] != b[0] then a[0] < b[0]
    else Less(a[1..], b[1..])
  }

  lemma {:induction false} LessIrreflexive(a: string)
    ensures !Less(a, a)
    decreases |a|
  {
    if |a| > 0 {
      LessIrreflexive(a[1..]);
    }
  }

  lemma {:induction false} LessTransitive(a: string, b: string, c: string)
    requires Less(a, b) && Less(b, c)
    ensures Less(a, c)
    decreases |a|
  {
    if |a| > 0 && a[0] == b[0] && b[0] == c[0] {
      LessTransitive(a[1..], b[1..], c[1..]);
    }
  }

  lemma {:induction false} LessTotal(a: string, b: string)
    ensures a == b || Less(a, b) || Less(b, a)
    decreases |a|
  {
    if |a| > 0 && |b| > 0 && a[0] == b[0] {
      LessTotal(a[1..], b[1..]);
      if a[1..] == b[1..] {
        assert a == [a[0]] + a[1..] && b == [b[0]] + b[1..];
      }
    }
  }

  /** Irreflexivity and transitivity for every pair and triple at once. */
  lemma LessStrictOrder()
    ensures forall a :: !Less(a, a)
    ensures forall a, b, c :: Less(a, b) && Less(b, c) ==> Less(a, c)
  {
    forall a ensures !Less(a, a) {
      LessIrreflexive(a);
    }
    forall a, b, c | Less(a, b) && Less(b, c) ensures Less(a, c) {
      LessTransitive(a, b, c);
    }
  }

  /** Each element strictly below every later one; hence no duplicates. */
  predicate StrictlySorted(s: seq<string>)
  {
    forall i, j :: 0 <= i < j < |s| ==> Less(s[i], s[j])
  }

  /** `m` is the least element of the set `s`. */
  predicate IsLeast(m: string, s: set<string>)
  {
    m in s && forall k {:trigger Less(m, k)} :: k in s && k != m ==> Less(m, k)
  }

  lemma {:induction false} LeastExists(s: set<string>)
    requires s != {}
    ensures exists m :: IsLeast(m, s)
    decreases |s|
  {
    var x :| x in s;
    if s != {x} {
      var rest := s - {x};
      LeastExists(rest);
      var m :| IsLeast(m, rest);
      LessTotal(x, m);
      if Less(x, m) {
        forall k | k in s && k != x ensures Less(x, k) {
          if k != m {
            LessTransitive(x, m, k);
          }
        }
        assert IsLeast(x, s);
      } else {
        assert IsLeast(m, s);
      }
    } else {
      assert IsLeast(x, s);
    }
  }

  lemma LeastUnique(s: set<string>)
    ensures forall m, n :: IsLeast(m, s) && IsLeast(n, s) ==> m == n
  {
    forall m, n | IsLeast(m, s) && IsLeast(n, s) ensures m == n {
      if m != n {
        assert Less(m, n) && Less(n, m);
        LessTransitive(m, n, m);
        LessIrreflexive(m);
      }
    }
  }

  /** `sorted(s)`: the elements of `s`, least first. */
  function SortedSet(s: set<string>): seq<string>
    decreases |s|
  {
    if s == {} then []
    else
      LeastExists(s);
      LeastUnique(s);
      var m :| IsLeast(m, s);
      [m] + SortedSet(s - {m})
  }

  /** `SortedSet(s)` starts with the least element of `s`. */
  lemma SortedSetUnfold(s: set<string>, m: string)
    requires IsLeast(m, s)
    ensures SortedSet(s) == [m] + SortedSet(s - {m})
  {
    LeastExists(s);
    LeastUnique(s);
  }

  /** `SortedSet(s)` lists every element of `s` and nothing else. */
  lemma {:induction false} SortedSetMembers(s: set<string>)
    ensures forall k :: k in SortedSet(s) <==> k in s
    ensures |SortedSet(s)| == |s|
    decreases |s|
  {
    if s != {} {
      LeastExists(s);
      var m :| IsLeast(m, s);
      SortedSetUnfold(s, m);
      SortedSetMembers(s - {m});
    }
  }

  /** `SortedSet(s)` is in strictly ascending order. */
  lemma {:induction false} SortedSetSorted(s: set<string>)
    ensures StrictlySorted(SortedSet(s))
    decreases |s|
  {
    if s != {} {
      LeastExists(s);
      var m :| IsLeast(m, s);
      SortedSetUnfold(s, m);
      var rest := SortedSet(s - {m});
      SortedSetMembers(s - {m});
      SortedSetSorted(s - {m});
      assert forall k :: k in rest ==> Less(m, k);
    }
  }

  /** There is only one ascending listing of a set: any strictly sorted
      sequence holding exactly the elements of `s` is `SortedSet(s)`. */
  lemma {:induction false} SortedSetUnique(s: set<string>, q: seq<string>)
    requires StrictlySorted(q)
    requires forall k :: k in q <==> k in s
    ensures q == SortedSet(s)
    decreases |q|
  {
    if q == [] {
      assert s == {};
    } else {
      HeadIsLeast(s, q);
      SortedSetUnfold(s, q[0]);
      SortedSetUnique(s - {q[0]}, q[1..]);
      assert q == [q[0]] + q[1..];
    }
  }

  /** The head of an ascending listing of `s` is the least element of `s`,
      and its tail lists the rest of `s`. */
  lemma HeadIsLeast(s: set<string>, q: seq<string>)
    requires StrictlySorted(q) && q != []
    requires forall k :: k in q <==> k in s
    ensures IsLeast(q[0], s)
    ensures StrictlySorted(q[1..])
    ensures forall k :: k in q[1..] <==> k in s - {q[0]}
  {
    LessIrreflexive(q[0]);
    forall k | k in s && k != q[0] ensures Less(q[0], k) {
      var j :| 0 <= j < |q| && q[j] == k;
    }
    forall k | k in q[1..] ensures k != q[0] {
      var j :| 1 <= j < |q| && q[j] == k;
    }
  }

  /** `s` with every occurrence of `x` dropped, order kept. */
  function Without(s: seq<string>, x: string): (r: seq<string>)
    ensures forall k :: k in r ==> k in s
  {
    if s == [] then []
    else if s[0] == x then Without(s[1..], x)
    else [s[0]] + Without(s[1..], x)
  }

  /** Dropping `x` keeps every other element. */
  lemma {:induction false} WithoutMembers(s: seq<string>, x: string)
    ensures forall k :: k in Without(s, x) <==> k in s && k != x
    decreases |s|
  {
    if s != [] {
      WithoutMembers(s[1..], x);
    }
  }

  /** Dropping `x` keeps the ascending order. */
  lemma {:induction false} WithoutSorted(s: seq<string>, x: string)
    requires StrictlySorted(s)
    ensures StrictlySorted(Without(s, x))
    decreases |s|
  {
    if s != [] {
      WithoutMembers(s[1..], x);
      WithoutSorted(s[1..], x);
      assert forall k :: k in s[1..] ==> Less(s[0], k);
    }
  }

  lemma {:induction false} WithoutSnoc(s: seq<string>, k: string, x: string)
    ensures Without(s + [k], x) == if k == x then Without(s, x) else Without(s, x) + [k]
    decreases |s|
  {
    if s == [] {
      assert [] + [k] == [k];
    } else {
      assert (s + [k])[1..] == s[1..] + [k];
      WithoutSnoc(s[1..], k, x);
    }
  }
}
