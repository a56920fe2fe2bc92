/** The list operations the components apply to an OpenLayers collection
 *  (a map's layers, a map's interactions): `remove` takes out the first
 *  occurrence of an element and leaves the list alone when the element is
 *  missing; a `forEach` over a second list removes each of its elements in
 *  turn. `Without` is the independent reference definition: keep every
 *  element that is not listed, in order. */
module Collection {

  /** No element occurs twice (the layer collection of a map is "unique"). */
  ghost predicate NoDup<T>(s: seq<T>) {
    forall i, j :: 0 <= i < j < |s| ==> s[i] != s[j]
  }

  /** `Collection.remove(x)`: drop the first occurrence of `x`, if any. */
  function RemoveFirst<T(==)>(s: seq<T>, x: T): (r: seq<T>)
    ensures x !in s ==> r == s
    ensures x in s ==> |r| == |s| - 1
    ensures forall y :: y in r ==> y in s
  {
    if |s| == 0 then s
    else
      assert s == [s[0]] + s[1..];
      if s[0] == x then s[1..]
      else [s[0]] + RemoveFirst(s[1..], x)
  }

  /** `remove` takes out exactly one copy of `x` when there is one, and nothing else. */
  lemma {:induction false} RemoveFirstMultiset<T>(s: seq<T>, x: T)
    ensures multiset(RemoveFirst(s, x)) == multiset(s) - multiset{x}
  {
    if |s| > 0 {
      assert s == [s[0]] + s[1..];
      if s[0] != x {
        RemoveFirstMultiset(s[1..], x);
      }
    }
  }

  /** `xs.forEach(x => remove(x))`: the removals are applied in the order of `xs`. */
  function RemoveAll<T(==)>(s: seq<T>, xs: seq<T>): seq<T>
  {
    if |xs| == 0 then s
    else RemoveFirst(RemoveAll(s, xs[..|xs| - 1]), xs[|xs| - 1])
  }

  /** One more removal at the end of the loop. */
  lemma RemoveAllSnoc<T>(s: seq<T>, xs: seq<T>, x: T)
    ensures RemoveAll(s, xs + [x]) == RemoveFirst(RemoveAll(s, xs), x)
  {
    assert (xs + [x])[..|xs|] == xs;
  }

  /** The elements of `s` not listed in `xs`, in their order in `s`. */
  function Without<T(==)>(s: seq<T>, xs: seq<T>): (r: seq<T>)
    ensures forall y :: y in r ==> y in s && y !in xs
    ensures forall y :: y in s && y !in xs ==> y in r
    ensures |r| <= |s|
  {
    if |s| == 0 then []
    else if s[0] in xs then Without(s[1..], xs)
    else
      assert s == [s[0]] + s[1..];
      [s[0]] + Without(s[1..], xs)
  }

  /** Appending a new element keeps a list free of repeats. */
  lemma {:induction false} NoDupSnoc<T>(s: seq<T>, x: T)
    requires NoDup(s) && x !in s
    ensures NoDup(s + [x])
  {
    if |s| > 0 {
      assert (s + [x])[1..] == s[1..] + [x];
      NoDupSnoc(s[1..], x);
    }
  }

  /** Filtering keeps a list free of repeats. */
  lemma {:induction false} WithoutNoDup<T>(s: seq<T>, xs: seq<T>)
    requires NoDup(s)
    ensures NoDup(Without(s, xs))
  {
    if |s| > 0 {
      WithoutNoDup(s[1..], xs);
      var w := Without(s[1..], xs);
      if s[0] !in xs {
        assert ([s[0]] + w)[1..] == w;
      }
    }
  }

  /** Filtering out elements that do not occur changes nothing. */
  lemma {:induction false} WithoutDisjoint<T>(s: seq<T>, xs: seq<T>)
    requires forall y :: y in s ==> y !in xs
    ensures Without(s, xs) == s
  {
    if |s| > 0 {
      assert s[0] in s;
      assert forall y :: y in s[1..] ==> y in s;
      WithoutDisjoint(s[1..], xs);
      assert s == [s[0]] + s[1..];
    }
  }

  /** The two halves of a list without repeats share no element. */
  lemma NoDupAppendDisjoint<T>(a: seq<T>, b: seq<T>)
    requires NoDup(a + b)
    ensures forall y :: y in a ==> y !in b
  {
    forall i, j | 0 <= i < |a| && 0 <= j < |b|
      ensures a[i] != b[j]
    {
      assert (a + b)[i] == a[i] && (a + b)[|a| + j] == b[j];
    }
  }

  /** Filtering out every element of a list leaves nothing. */
  lemma {:induction false} WithoutCovered<T>(s: seq<T>, xs: seq<T>)
    requires forall y :: y in s ==> y in xs
    ensures Without(s, xs) == []
  {
    if |s| > 0 {
      assert s[0] in s;
      assert forall y :: y in s[1..] ==> y in s;
      WithoutCovered(s[1..], xs);
    }
  }

  /** Filtering distributes over concatenation. */
  lemma {:induction false} WithoutAppend<T>(a: seq<T>, b: seq<T>, xs: seq<T>)
    ensures Without(a + b, xs) == Without(a, xs) + Without(b, xs)
  {
    if |a| > 0 {
      assert (a + b)[0] == a[0] && (a + b)[1..] == a[1..] + b;
      WithoutAppend(a[1..], b, xs);
    } else {
      assert a + b == b;
    }
  }

  /** Filtering by `a` and then by `b` is filtering by both. */
  lemma {:induction false} WithoutCompose<T>(s: seq<T>, a: seq<T>, b: seq<T>)
    ensures Without(Without(s, a), b) == Without(s, a + b)
  {
    if |s| > 0 {
      WithoutCompose(s[1..], a, b);
      assert s[0] in a + b <==> s[0] in a || s[0] in b;
    }
  }

  /** On a list without repeats, `remove(x)` is filtering out `x`. */
  lemma {:induction false} RemoveFirstNoDup<T>(s: seq<T>, x: T)
    requires NoDup(s)
    ensures RemoveFirst(s, x) == Without(s, [x])
  {
    if |s| > 0 {
      if s[0] == x {
        WithoutDisjoint(s[1..], [x]);
      } else {
        RemoveFirstNoDup(s[1..], x);
      }
    }
  }

  /** Removing one element keeps a list free of repeats. */
  lemma RemoveFirstKeepsNoDup<T>(s: seq<T>, x: T)
    requires NoDup(s)
    ensures NoDup(RemoveFirst(s, x))
  {
    RemoveFirstNoDup(s, x);
    WithoutNoDup(s, [x]);
  }

  /** On a list without repeats, removing the elements of `xs` one by one
   *  leaves exactly the elements not in `xs`, in their original order. */
  lemma {:induction false} RemoveAllNoDup<T>(s: seq<T>, xs: seq<T>)
    requires NoDup(s)
    ensures RemoveAll(s, xs) == Without(s, xs)
  {
    if |xs| > 0 {
      var init, x := xs[..|xs| - 1], xs[|xs| - 1];
      assert init + [x] == xs;
      calc {
        RemoveAll(s, xs);
        RemoveFirst(RemoveAll(s, init), x);
        { RemoveAllNoDup(s, init); }
        RemoveFirst(Without(s, init), x);
        { WithoutNoDup(s, init); RemoveFirstNoDup(Without(s, init), x); }
        Without(Without(s, init), [x]);
        { WithoutCompose(s, init, [x]); }
        Without(s, xs);
      }
    } else {
      WithoutDisjoint(s, xs);
    }
  }
}
