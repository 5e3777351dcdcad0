/** Facts about sequences of identifiers shared by the queue proofs. */
module Seqs {

  ghost predicate Distinct<T>(s: seq<T>) {
    forall i, j :: 0 <= i < j < |s| ==> s[i] != s[j]
  }

  function Elems<T(!new)>(s: seq<T>): (r: set<T>)
    ensures forall x :: x in r <==> x in s
  {
    set x | x in s
  }

  /** A log of arrivals split into those served and those waiting: serving the first `k` waiting
      moves the split point and nothing else. */
  lemma Served<T(!new)>(came: seq<T>, given: seq<T>, wait: seq<T>, k: nat)
    requires Distinct(came) && came == given + wait && k <= |wait|
    ensures came == (given + wait[..k]) + wait[k..]
    ensures Distinct(wait) && Distinct(wait[..k])
    ensures forall x :: x in wait ==> x !in given
    ensures forall x :: x in wait <==> x in wait[..k] || x in wait[k..]
    ensures forall x :: x in wait[..k] ==> x !in wait[k..]
  {
    assert wait == wait[..k] + wait[k..];
    forall i, j | 0 <= i < j < |wait| ensures wait[i] != wait[j] {
      assert came[|given| + i] != came[|given| + j];
    }
    forall x | x in wait ensures x !in given {
      var j :| 0 <= j < |wait| && wait[j] == x;
      forall i | 0 <= i < |given| ensures given[i] != x { assert came[i] != came[|given| + j]; }
    }
  }

  lemma {:induction false} CountDistinct<T(!new)>(s: seq<T>)
    requires Distinct(s)
    ensures |Elems(s)| == |s|
    decreases |s|
  {
    if s != [] {
      var rest := s[..|s| - 1];
      CountDistinct(rest);
      assert Elems(s) == Elems(rest) + {s[|s| - 1]};
    }
  }

  /** `s` with the members of `gone` left out, the rest in order. */
  function Without<T(!new)>(s: seq<T>, gone: set<T>): (r: seq<T>)
    ensures forall x :: x in r <==> x in s && x !in gone
  {
    if s == [] then []
    else
      var rest := Without(s[..|s| - 1], gone);
      if s[|s| - 1] in gone then rest else rest + [s[|s| - 1]]
  }

  lemma {:induction false} WithoutConcat<T(!new)>(a: seq<T>, b: seq<T>, gone: set<T>)
    ensures Without(a + b, gone) == Without(a, gone) + Without(b, gone)
    decreases |b|
  {
    if b == [] {
      assert a + b == a;
    } else {
      assert (a + b)[..|a + b| - 1] == a + b[..|b| - 1];
      WithoutConcat(a, b[..|b| - 1], gone);
    }
  }

  lemma DistinctSnoc<T(!new)>(s: seq<T>, x: T)
    requires Distinct(s) && x !in s
    ensures Distinct(s + [x])
  {
  }

  lemma WithoutSnoc<T(!new)>(s: seq<T>, x: T, gone: set<T>)
    ensures Without(s + [x], gone) == Without(s, gone) + if x in gone then [] else [x]
  {
    assert (s + [x])[..|s|] == s;
  }

  lemma {:induction false} WithoutNone<T(!new)>(s: seq<T>, gone: set<T>)
    requires forall x :: x in s ==> x !in gone
    ensures Without(s, gone) == s
    decreases |s|
  {
    if s != [] { WithoutNone(s[..|s| - 1], gone); }
  }

  lemma {:induction false} WithoutTwice<T(!new)>(s: seq<T>, a: set<T>, b: set<T>)
    ensures Without(Without(s, a), b) == Without(s, a + b)
    decreases |s|
  {
    if s != [] {
      WithoutTwice(s[..|s| - 1], a, b);
      if s[|s| - 1] !in a {
        WithoutConcat(Without(s[..|s| - 1], a), [s[|s| - 1]], b);
      }
    }
  }

  lemma {:induction false} WithoutDistinct<T(!new)>(s: seq<T>, gone: set<T>)
    requires Distinct(s)
    ensures Distinct(Without(s, gone))
    decreases |s|
  {
    if s != [] {
      WithoutDistinct(s[..|s| - 1], gone);
      assert s[|s| - 1] !in s[..|s| - 1];
    }
  }

  lemma {:induction false} WithoutAgree<T(!new)>(s: seq<T>, a: set<T>, b: set<T>)
    requires forall x :: x in s ==> (x in a <==> x in b)
    ensures Without(s, a) == Without(s, b)
    decreases |s|
  {
    if s != [] { WithoutAgree(s[..|s| - 1], a, b); }
  }

  lemma Regroup<T>(a: seq<T>, b: seq<T>, c: seq<T>)
    ensures (a + b) + c == a + (b + c)
  {
  }

  lemma {:induction false} WithoutAll<T(!new)>(s: seq<T>, gone: set<T>)
    requires forall x :: x in s ==> x in gone
    ensures Without(s, gone) == []
    decreases |s|
  {
    if s != [] { WithoutAll(s[..|s| - 1], gone); }
  }
}
