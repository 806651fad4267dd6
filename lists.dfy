/**
 * The list operations the components use: `indexOf`/`findIndex`, `find`,
 * `filter`, and the cyclic "next entry" rule `list[(indexOf(x) + 1) % length]`
 * shared by the theme and language toggles.
 */
module Lists {
  import opened Wrappers

  /** `s.indexOf(x)`: the first position holding `x`, or -1. */
  function IndexOf<T(==)>(s: seq<T>, x: T): (r: int)
    ensures -1 <= r < |s|
    ensures r == -1 <==> x !in s
    ensures 0 <= r ==> s[r] == x && x !in s[..r]
  {
    if s == [] then -1
    else if s[0] == x then 0
    else
      var k := IndexOf(s[1..], x);
      assert s[1..][..if k < 0 then 0 else k] == s[1..1 + if k < 0 then 0 else k];
      if k < 0 then -1 else k + 1
  }

  /** `s.findIndex(p)`: the first position satisfying `p`, if any. */
  function FirstWhere<T>(s: seq<T>, p: T -> bool): (r: Option<nat>)
    ensures r.None? <==> forall i :: 0 <= i < |s| ==> !p(s[i])
    ensures r.Some? ==> r.value < |s| && p(s[r.value])
    ensures r.Some? ==> forall i :: 0 <= i < r.value ==> !p(s[i])
  {
    if s == [] then None
    else if p(s[0]) then Some(0)
    else match FirstWhere(s[1..], p)
      case None => None
      case Some(k) => Some(k + 1)
  }

  /** `s.filter(p)`. */
  function Filter<T(==)>(s: seq<T>, p: T -> bool): (r: seq<T>)
    ensures |r| <= |s|
    ensures forall i :: 0 <= i < |r| ==> r[i] in s && p(r[i])
    ensures forall i :: 0 <= i < |s| && p(s[i]) ==> s[i] in r
  {
    if s == [] then []
    else if p(s[0]) then [s[0]] + Filter(s[1..], p)
    else Filter(s[1..], p)
  }

  /** Filtering distributes over concatenation, so it keeps the input's order. */
  lemma {:induction false} FilterConcat<T>(a: seq<T>, b: seq<T>, p: T -> bool)
    ensures Filter(a + b, p) == Filter(a, p) + Filter(b, p)
    decreases |a|
  {
    if a == [] {
      assert a + b == b;
    } else {
      assert (a + b)[0] == a[0] && (a + b)[1..] == a[1..] + b;
      FilterConcat(a[1..], b, p);
      if p(a[0]) {
        calc {
          Filter(a + b, p);
          [a[0]] + Filter(a[1..] + b, p);
          [a[0]] + (Filter(a[1..], p) + Filter(b, p));
          Filter(a, p) + Filter(b, p);
        }
      }
    }
  }

  /** Filtering with a predicate every element meets changes nothing. */
  lemma {:induction false} FilterAll<T>(s: seq<T>, p: T -> bool)
    requires forall i :: 0 <= i < |s| ==> p(s[i])
    ensures Filter(s, p) == s
    decreases |s|
  {
    if s != [] {
      FilterAll(s[1..], p);
    }
  }

  /** When at most one element fails the predicate, filtering drops at most one element. */
  lemma {:induction false} FilterDropsAtMostOne<T>(s: seq<T>, p: T -> bool)
    requires forall i, j :: 0 <= i < j < |s| ==> p(s[i]) || p(s[j])
    ensures |Filter(s, p)| >= |s| - 1
    decreases |s|
  {
    if s != [] {
      if p(s[0]) {
        forall i, j | 0 <= i < j < |s[1..]|
          ensures p(s[1..][i]) || p(s[1..][j])
        {
          assert s[1..][i] == s[i + 1] && s[1..][j] == s[j + 1];
        }
        FilterDropsAtMostOne(s[1..], p);
      } else {
        forall i | 0 <= i < |s[1..]|
          ensures p(s[1..][i])
        {
          assert s[1..][i] == s[i + 1];
        }
        FilterAll(s[1..], p);
      }
    }
  }

  /** A relation that holds between every earlier and later element still holds after filtering. */
  lemma {:induction false} FilterPairwise<T>(s: seq<T>, p: T -> bool, rel: (T, T) -> bool)
    requires forall i, j :: 0 <= i < j < |s| ==> rel(s[i], s[j])
    ensures forall i, j :: 0 <= i < j < |Filter(s, p)| ==> rel(Filter(s, p)[i], Filter(s, p)[j])
    decreases |s|
  {
    if s != [] {
      FilterPairwise(s[1..], p, rel);
      var rest := Filter(s[1..], p);
      if p(s[0]) {
        forall j | 0 <= j < |rest|
          ensures rel(s[0], rest[j])
        {
          var k :| 0 <= k < |s[1..]| && s[1..][k] == rest[j];
          assert s[k + 1] == rest[j];
        }
        assert Filter(s, p) == [s[0]] + rest;
      }
    }
  }

  predicate Distinct<T(==)>(s: seq<T>) {
    forall i, j :: 0 <= i < j < |s| ==> s[i] != s[j]
  }

  /** `names[(names.indexOf(current) + 1) % names.length]`; `None` stands for the `undefined` of an empty list. */
  function NextCyclic<T(==)>(names: seq<T>, current: T): (r: Option<T>)
    ensures r.None? <==> names == []
    ensures r.Some? ==> r.value in names
    ensures current !in names && names != [] ==> r == Some(names[0])
  {
    if names == [] then None
    else Some(names[(IndexOf(names, current) + 1) % |names|])
  }

  /** Applies NextCyclic `k` times, starting from `current`. */
  function Iterate<T(==)>(names: seq<T>, current: T, k: nat): T
    decreases k
  {
    if k == 0 then current
    else match NextCyclic(names, current)
      case None => current
      case Some(next) => Iterate(names, next, k - 1)
  }

  /** The position after `i` in a cycle of length `n`. */
  function Succ(i: nat, n: nat): nat {
    if i + 1 < n then i + 1 else 0
  }

  /** The position `k` steps after `i` in a cycle of length `n`. */
  function Advance(i: nat, k: nat, n: nat): nat
    decreases k
  {
    if k == 0 then i else Advance(Succ(i, n), k - 1, n)
  }

  /** On a list without duplicates, the entry at `i` moves to the next entry, wrapping at the end. */
  lemma NextCyclicAt<T>(names: seq<T>, i: nat)
    requires Distinct(names) && i < |names|
    ensures NextCyclic(names, names[i]) == Some(names[Succ(i, |names|)])
  {
    IndexOfDistinct(names, i);
    SuccIsMod(i, |names|);
  }

  lemma IndexOfDistinct<T>(names: seq<T>, i: nat)
    requires Distinct(names) && i < |names|
    ensures IndexOf(names, names[i]) == i
  {
  }

  lemma SuccIsMod(i: nat, n: nat)
    requires i < n
    ensures Succ(i, n) == (i + 1) % n
  {
  }

  /** `k` steps from the entry at `i` land on the entry `k` positions further round the cycle. */
  lemma {:induction false} IterateAdvances<T>(names: seq<T>, i: nat, k: nat)
    requires Distinct(names) && i < |names|
    ensures Advance(i, k, |names|) < |names|
    ensures Iterate(names, names[i], k) == names[Advance(i, k, |names|)]
    decreases k
  {
    if k > 0 {
      NextCyclicAt(names, i);
      IterateAdvances(names, Succ(i, |names|), k - 1);
    }
  }

  lemma {:induction false} AdvanceCompose(i: nat, a: nat, b: nat, n: nat)
    ensures Advance(i, a + b, n) == Advance(Advance(i, a, n), b, n)
    decreases a
  {
    if a > 0 {
      AdvanceCompose(Succ(i, n), a - 1, b, n);
    }
  }

  lemma {:induction false} AdvanceWithinRound(i: nat, k: nat, n: nat)
    requires i + k < n
    ensures Advance(i, k, n) == i + k
    decreases k
  {
    if k > 0 {
      AdvanceWithinRound(i + 1, k - 1, n);
    }
  }

  /** After as many steps as the list is long, the toggle is back at its starting entry. */
  lemma {:induction false} FullRoundReturns<T>(names: seq<T>, i: nat)
    requires Distinct(names) && i < |names|
    ensures Iterate(names, names[i], |names|) == names[i]
  {
    var n := |names|;
    IterateAdvances(names, i, n);
    var k := Advance(i, n, n);
    assert Iterate(names, names[i], n) == names[k];
    assert k == i by {
      AdvanceCompose(i, n - i - 1, i + 1, n);
      AdvanceWithinRound(i, n - i - 1, n);
      assert Succ(n - 1, n) == 0;
      assert Advance(n - 1, i + 1, n) == Advance(0, i, n);
      AdvanceWithinRound(0, i, n);
    }
  }
}
