/**
 * Python's ordering of strings and of the tuples the confusion summary compares, and
 * Python's builtin `max` over a list. Python compares strings code point by code point,
 * a proper prefix coming first; tuples are compared element by element.
 */
module PyOrder {

  /** Python's `a < b` on two strings. Note that Dafny's own `<` on sequences means "proper prefix". */
  predicate StrLess(a: string, b: string): (r: bool)
    ensures r ==> a != b
    ensures a < b ==> r
    decreases |a|
  {
    if a == [] then b != []
    else if b == [] then false
    else if a[0] != b[0] then a[0] < b[0]
    else StrLess(a[1..], b[1..])
  }

  lemma {:induction false} StrLessIrreflexive(a: string)
    ensures !StrLess(a, a)
    decreases |a|
  {
    if a != [] { StrLessIrreflexive(a[1..]); }
  }

  lemma {:induction false} StrLessTransitive(a: string, b: string, c: string)
    requires StrLess(a, b) && StrLess(b, c)
    ensures StrLess(a, c)
    decreases |a|
  {
    if a != [] && b != [] && c != [] && a[0] == b[0] && b[0] == c[0] {
      StrLessTransitive(a[1..], b[1..], c[1..]);
    }
  }

  /** Any two different strings are ordered one way or the other. */
  lemma {:induction false} StrLessTotal(a: string, b: string)
    requires a != b
    ensures StrLess(a, b) || StrLess(b, a)
    decreases |a|
  {
    if a != [] && b != [] && a[0] == b[0] {
      assert a == [a[0]] + a[1..] && b == [b[0]] + b[1..];
      StrLessTotal(a[1..], b[1..]);
    }
  }

  /** Python's `(v1, s1) < (v2, s2)` for a value and a class name. */
  predicate PairLess(x: (real, string), y: (real, string)): (r: bool)
    ensures x.0 < y.0 ==> r
    ensures r ==> x.0 <= y.0
  {
    x.0 < y.0 || (x.0 == y.0 && StrLess(x.1, y.1))
  }

  /** Python's `(v1, (a1, b1)) < (v2, (a2, b2))` for a value and a pair of class names. */
  predicate NestedLess(x: (real, (string, string)), y: (real, (string, string))): (r: bool)
    ensures x.0 < y.0 ==> r
    ensures r ==> x.0 <= y.0
  {
    x.0 < y.0 || (x.0 == y.0 && (StrLess(x.1.0, y.1.0) || (x.1.0 == y.1.0 && StrLess(x.1.1, y.1.1))))
  }

  lemma PairLessFacts(x: (real, string), y: (real, string), z: (real, string))
    ensures !PairLess(x, x)
    ensures PairLess(x, y) && PairLess(y, z) ==> PairLess(x, z)
    ensures x != y ==> PairLess(x, y) || PairLess(y, x)
  {
    StrLessIrreflexive(x.1);
    if PairLess(x, y) && PairLess(y, z) && x.0 == y.0 == z.0 {
      StrLessTransitive(x.1, y.1, z.1);
    }
    if x != y && x.0 == y.0 {
      StrLessTotal(x.1, y.1);
    }
  }

  lemma NestedLessFacts(x: (real, (string, string)), y: (real, (string, string)), z: (real, (string, string)))
    ensures !NestedLess(x, x)
    ensures NestedLess(x, y) && NestedLess(y, z) ==> NestedLess(x, z)
    ensures x != y ==> NestedLess(x, y) || NestedLess(y, x)
  {
    StrLessIrreflexive(x.1.0);
    StrLessIrreflexive(x.1.1);
    if NestedLess(x, y) && NestedLess(y, z) && x.0 == y.0 == z.0 {
      if StrLess(x.1.0, y.1.0) && StrLess(y.1.0, z.1.0) {
        StrLessTransitive(x.1.0, y.1.0, z.1.0);
      }
      if x.1.0 == y.1.0 == z.1.0 && StrLess(x.1.1, y.1.1) && StrLess(y.1.1, z.1.1) {
        StrLessTransitive(x.1.1, y.1.1, z.1.1);
      }
    }
    if x != y && x.0 == y.0 {
      if x.1.0 != y.1.0 {
        StrLessTotal(x.1.0, y.1.0);
      } else {
        assert x.1.1 != y.1.1;
        StrLessTotal(x.1.1, y.1.1);
      }
    }
  }

  /** `less` is irreflexive and transitive, as Python's `<` is on the tuples compared here. */
  ghost predicate StrictOrder<T(!new)>(less: (T, T) -> bool)
  {
    && (forall a :: !less(a, a))
    && (forall a, b, c :: less(a, b) && less(b, c) ==> less(a, c))
  }

  /**
   * What Python's builtin `max(xs)` returns: walking the list, the current best is replaced
   * only by a strictly greater element.
   */
  function Greatest<T>(xs: seq<T>, less: (T, T) -> bool): (m: T)
    requires |xs| > 0
    ensures m in xs
  {
    if |xs| == 1 then xs[0]
    else
      var best := Greatest(xs[..|xs| - 1], less);
      if less(best, xs[|xs| - 1]) then xs[|xs| - 1] else best
  }

  /** Under a strict order, no element of the list exceeds what `max` returns. */
  lemma {:induction false} GreatestIsMaximal<T(!new)>(xs: seq<T>, less: (T, T) -> bool)
    requires |xs| > 0 && StrictOrder(less)
    ensures forall x | x in xs :: !less(Greatest(xs, less), x)
  {
    if |xs| > 1 {
      var init := xs[..|xs| - 1];
      GreatestIsMaximal(init, less);
      assert forall x | x in xs :: x in init || x == xs[|xs| - 1];
    }
  }

  /** Python's builtin `max` as the loop it runs. */
  method Max<T>(xs: seq<T>, less: (T, T) -> bool) returns (m: T)
    requires |xs| > 0
    ensures m == Greatest(xs, less)
  {
    m := xs[0];
    for i := 1 to |xs|
      invariant m == Greatest(xs[..i], less)
    {
      assert xs[..i + 1][..i] == xs[..i];
      if less(m, xs[i]) {
        m := xs[i];
      }
    }
    assert xs[..|xs|] == xs;
  }

  lemma PairLessStrictOrder()
    ensures StrictOrder(PairLess)
  {
    forall a, b, c
      ensures !PairLess(a, a)
      ensures PairLess(a, b) && PairLess(b, c) ==> PairLess(a, c)
    {
      PairLessFacts(a, b, c);
    }
  }

  lemma NestedLessStrictOrder()
    ensures StrictOrder(NestedLess)
  {
    forall a, b, c
      ensures !NestedLess(a, a)
      ensures NestedLess(a, b) && NestedLess(b, c) ==> NestedLess(a, c)
    {
      NestedLessFacts(a, b, c);
    }
  }
}
