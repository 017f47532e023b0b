/** Rust's `Ord for str` and the `sort()` + `dedup()` pair that every
    extraction strategy applies to its result list. `str` compares its UTF-8
    bytes lexicographically, which orders strings exactly as comparing their
    code points does. */
module Ordering {
  import opened Collections

  /** `a < b` for Rust strings. */
  predicate Less(a: string, b: string)
    decreases |a|
  {
    if a == [] then b != []
    else if b == [] then false
    else if a[0] == b[0] then Less(a[1..], b[1..])
    else a[0] < b[0]
  }

  lemma {:induction false} LessIrreflexive(a: string)
    ensures !Less(a, a)
    decreases |a|
  {
    if a != [] {
      LessIrreflexive(a[1..]);
    }
  }

  lemma {:induction false} LessTransitive(a: string, b: string, c: string)
    requires Less(a, b) && Less(b, c)
    ensures Less(a, c)
    decreases |a|
  {
    if a != [] && b != [] && c != [] && a[0] == b[0] && b[0] == c[0] {
      LessTransitive(a[1..], b[1..], c[1..]);
    }
  }

  lemma {:induction false} LessTotal(a: string, b: string)
    ensures a == b || Less(a, b) || Less(b, a)
    decreases |a|
  {
    if a != [] && b != [] && a[0] == b[0] {
      LessTotal(a[1..], b[1..]);
      if a[1..] == b[1..] {
        assert a == [a[0]] + a[1..] && b == [b[0]] + b[1..];
      }
    }
  }

  lemma LessAsymmetric(a: string, b: string)
    ensures !(Less(a, b) && Less(b, a))
  {
    if Less(a, b) && Less(b, a) {
      LessTransitive(a, b, a);
      LessIrreflexive(a);
    }
  }

  /** Strictly increasing: sorted and free of duplicates. */
  predicate StrictlySorted(s: seq<string>) {
    forall i, j :: 0 <= i < j < |s| ==> Less(s[i], s[j])
  }

  lemma ConsSorted(x: string, s: seq<string>)
    requires StrictlySorted(s)
    requires forall y :: y in s ==> Less(x, y)
    ensures StrictlySorted([x] + s)
  {
    var r := [x] + s;
    forall i, j | 0 <= i < j < |r|
      ensures Less(r[i], r[j])
    {
      if i == 0 {
        assert r[j] == s[j - 1];
      } else {
        assert r[i] == s[i - 1] && r[j] == s[j - 1];
      }
    }
  }

  /** Inserts `x` at its place in a strictly increasing list, unless it is
      already there. */
  function InsertSorted(s: seq<string>, x: string): (r: seq<string>)
    requires StrictlySorted(s)
    ensures StrictlySorted(r)
    ensures Elems(r) == Elems(s) + {x}
    decreases |s|
  {
    if s == [] then [x]
    else if x == s[0] then s
    else if Less(x, s[0]) then
      (forall y | y in s ensures Less(x, y) {
         var j :| 0 <= j < |s| && s[j] == y;
         if j > 0 { LessTransitive(x, s[0], y); }
       }
       ConsSorted(x, s);
       assert Elems([x] + s) == Elems(s) + {x};
       [x] + s)
    else
      (LessTotal(x, s[0]);
       var tail := InsertSorted(s[1..], x);
       forall y | y in tail ensures Less(s[0], y) {
         assert y in Elems(tail);
         if y != x {
           var j :| 0 <= j < |s[1..]| && s[1..][j] == y;
           assert s[j + 1] == y;
         }
       }
       ConsSorted(s[0], tail);
       assert s == [s[0]] + s[1..];
       assert Elems([s[0]] + tail) == {s[0]} + Elems(tail);
       assert Elems(s) == {s[0]} + Elems(s[1..]);
       [s[0]] + tail)
  }

  /** The list `v.sort(); v.dedup();` leaves: the distinct elements of `v` in
      increasing order. */
  function SortedDistinct(v: seq<string>): (r: seq<string>)
    ensures StrictlySorted(r)
    ensures Elems(r) == Elems(v)
    decreases |v|
  {
    if v == [] then []
    else
      assert v == v[..|v| - 1] + [v[|v| - 1]];
      assert Elems(v) == Elems(v[..|v| - 1]) + {v[|v| - 1]};
      InsertSorted(SortedDistinct(v[..|v| - 1]), v[|v| - 1])
  }

  /** A strictly increasing list is determined by its elements, so sorting and
      deduplicating gives the same list whatever order the candidates were
      collected in. */
  lemma {:induction false} SortedUnique(a: seq<string>, b: seq<string>)
    requires StrictlySorted(a) && StrictlySorted(b)
    requires Elems(a) == Elems(b)
    ensures a == b
    decreases |a|
  {
    ElemsEmpty(a);
    ElemsEmpty(b);
    if a != [] && b != [] {
      assert a[0] in Elems(b) && b[0] in Elems(a);
      var i :| 0 <= i < |b| && b[i] == a[0];
      var j :| 0 <= j < |a| && a[j] == b[0];
      if i > 0 && j > 0 {
        LessAsymmetric(a[0], b[0]);
      }
      assert a[0] == b[0];
      LessIrreflexive(a[0]);
      assert Elems(a[1..]) == Elems(a) - {a[0]} by {
        assert a == [a[0]] + a[1..];
        forall k | 0 <= k < |a[1..]| ensures a[1..][k] != a[0] {
          assert Less(a[0], a[k + 1]);
        }
      }
      assert Elems(b[1..]) == Elems(b) - {b[0]} by {
        assert b == [b[0]] + b[1..];
        forall k | 0 <= k < |b[1..]| ensures b[1..][k] != b[0] {
          assert Less(b[0], b[k + 1]);
        }
      }
      SortedUnique(a[1..], b[1..]);
      assert a == [a[0]] + a[1..] && b == [b[0]] + b[1..];
    }
  }

  /** The strictly increasing list of a set's elements; by `SortedUnique`
      it is the only one. */
  ghost function SortedList(s: set<string>): (r: seq<string>)
    ensures StrictlySorted(r) && Elems(r) == s
    decreases |s|
  {
    if s == {} then []
    else
      var x :| x in s;
      InsertSorted(SortedList(s - {x}), x)
  }
}
