/** Iterating over a Python set: every element exactly once, in an order the
    program does not control. */
module Collections {

  /** `xs` lists the elements of `s`, each exactly once. */
  ghost predicate Enumerates<T>(xs: seq<T>, s: set<T>) {
    && (forall x | x in xs :: x in s)
    && (forall x | x in s :: x in xs)
    && (forall i, j | 0 <= i < j < |xs| :: xs[i] != xs[j])
  }

  method Enumerate<T(==)>(s: set<T>) returns (xs: seq<T>)
    ensures Enumerates(xs, s)
  {
    xs := [];
    var rest := s;
    while rest != {}
      invariant rest <= s
      invariant forall x | x in xs :: x in s - rest
      invariant forall x | x in s - rest :: x in xs
      invariant forall i, j | 0 <= i < j < |xs| :: xs[i] != xs[j]
      decreases rest
    {
      var x :| x in rest;
      assert forall k | 0 <= k < |xs| :: xs[k] in xs && xs[k] != x;
      xs := xs + [x];
      rest := rest - {x};
    }
  }

  /** An enumeration of a set is exactly as long as the set is large. */
  lemma {:induction false} EnumerationSize<T>(xs: seq<T>, s: set<T>)
    requires Enumerates(xs, s)
    ensures |xs| == |s|
  {
    if xs != [] {
      var last := xs[|xs| - 1];
      var init := xs[..|xs| - 1];
      assert forall x | x in init :: x in s - {last} by {
        forall x | x in init ensures x in s - {last} {
          var i :| 0 <= i < |init| && init[i] == x;
          assert xs[i] != xs[|xs| - 1];
        }
      }
      assert forall x | x in s - {last} :: x in init by {
        forall x | x in s - {last} ensures x in init {
          assert x in xs;
          var i :| 0 <= i < |xs| && xs[i] == x;
          assert i != |xs| - 1;
          assert init[i] == x;
        }
      }
      EnumerationSize(init, s - {last});
    }
  }

  lemma NothingToEnumerate<T>(xs: seq<T>)
    requires Enumerates(xs, {})
    ensures xs == []
  {
    EnumerationSize(xs, {});
  }
}
