/** Sets gathered from sequences: the element set of a `Vec`, and the union of
    what a `for` loop inserts into a `HashSet` while walking a sequence. */
module Collections {

  /** The distinct elements of a sequence. */
  function Elems<T>(s: seq<T>): set<T> {
    set x | x in s
  }

  lemma ElemsEmpty<T>(s: seq<T>)
    ensures Elems(s) == {} <==> s == []
  {
    if s != [] {
      assert s[0] in Elems(s);
    }
  }

  /** Union of `f(x)` over the elements of `xs`, taken left to right: what a
      loop over `xs` inserting `f(x)` at each step adds to a set. */
  function UnionOver<T, U>(xs: seq<T>, f: T -> set<U>): set<U>
    decreases |xs|
  {
    if xs == [] then {} else UnionOver(xs[..|xs| - 1], f) + f(xs[|xs| - 1])
  }

  /** One more loop step adds the contribution of the next element. */
  lemma UnionOverStep<T, U>(xs: seq<T>, k: nat, f: T -> set<U>)
    requires k < |xs|
    ensures UnionOver(xs[..k + 1], f) == UnionOver(xs[..k], f) + f(xs[k])
  {
    assert xs[..k + 1][..k] == xs[..k];
  }

  /** The union holds exactly the contributions of the elements. */
  lemma {:induction false} UnionOverMember<T, U>(xs: seq<T>, f: T -> set<U>, u: U)
    ensures u in UnionOver(xs, f) <==> exists i :: 0 <= i < |xs| && u in f(xs[i])
    decreases |xs|
  {
    if xs != [] {
      var init := xs[..|xs| - 1];
      UnionOverMember(init, f, u);
      if exists i :: 0 <= i < |xs| && u in f(xs[i]) {
        var i :| 0 <= i < |xs| && u in f(xs[i]);
        if i < |xs| - 1 {
          assert init[i] == xs[i];
        }
      }
      if u in UnionOver(init, f) {
        var i :| 0 <= i < |init| && u in f(init[i]);
        assert xs[i] == init[i];
      }
    }
  }

  /** No element occurs twice. */
  predicate Distinct<T(==)>(xs: seq<T>) {
    forall i, j :: 0 <= i < j < |xs| ==> xs[i] != xs[j]
  }

  /** A duplicate-free sequence has as many elements as its element set. */
  lemma {:induction false} DistinctCard<T>(xs: seq<T>)
    requires Distinct(xs)
    ensures |Elems(xs)| == |xs|
    decreases |xs|
  {
    if xs != [] {
      var init := xs[..|xs| - 1];
      var last := xs[|xs| - 1];
      assert Distinct(init);
      DistinctCard(init);
      assert xs == init + [last];
      assert Elems(xs) == Elems(init) + {last};
      assert last !in Elems(init);
    }
  }

  /** `set.into_iter().collect::<Vec<_>>()`: the elements of a set in some
      order, each once. */
  method Enumerate<T(==)>(s: set<T>) returns (xs: seq<T>)
    ensures Elems(xs) == s && Distinct(xs)
  {
    xs := [];
    var rest := s;
    while rest != {}
      invariant Elems(xs) + rest == s && Elems(xs) !! rest
      invariant Distinct(xs)
      decreases |rest|
    {
      var x :| x in rest;
      xs := xs + [x];
      rest := rest - {x};
    }
  }
}
