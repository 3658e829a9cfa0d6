/** Python list comprehensions with a condition, and order-preserving selection. */
module Seqs {

  /** `a` can be obtained from `b` by deleting elements: order is kept. */
  predicate IsSubseq<T(==)>(a: seq<T>, b: seq<T>)
    decreases |b|
  {
    |a| == 0 || (|b| > 0 && if a[0] == b[0] then IsSubseq(a[1..], b[1..]) else IsSubseq(a, b[1..]))
  }

  /** `[x for x in s if p(x)]`. */
  function Filter<T>(p: T -> bool, s: seq<T>): (r: seq<T>)
    ensures |r| <= |s|
  {
    if |s| == 0 then []
    else if p(s[0]) then [s[0]] + Filter(p, s[1..])
    else Filter(p, s[1..])
  }

  /** The comprehension keeps exactly the elements that pass, in their order. */
  lemma {:induction false} FilterSpec<T>(p: T -> bool, s: seq<T>)
    ensures forall k :: 0 <= k < |Filter(p, s)| ==> p(Filter(p, s)[k]) && Filter(p, s)[k] in s
    ensures forall x :: x in s && p(x) ==> x in Filter(p, s)
    ensures IsSubseq(Filter(p, s), s)
  {
    if |s| > 0 {
      FilterSpec(p, s[1..]);
      var rest := Filter(p, s[1..]);
      if p(s[0]) {
        var r := [s[0]] + rest;
        assert r[1..] == rest;
        forall x | x in s && p(x)
          ensures x in r
        {
          if x != s[0] {
            assert x in s[1..];
          }
        }
      } else {
        forall x | x in s && p(x)
          ensures x in rest
        {
          assert x in s[1..];
        }
      }
    }
  }

  lemma {:induction false} FilterAppend<T>(p: T -> bool, a: seq<T>, b: seq<T>)
    ensures Filter(p, a + b) == Filter(p, a) + Filter(p, b)
  {
    if |a| > 0 {
      assert (a + b)[1..] == a[1..] + b;
      FilterAppend(p, a[1..], b);
    } else {
      assert a + b == b;
    }
  }

  lemma FilterOne<T>(p: T -> bool, x: T)
    ensures Filter(p, [x]) == if p(x) then [x] else []
  {
    assert [x][1..] == [];
  }

  lemma FilterSnoc<T>(p: T -> bool, s: seq<T>, x: T)
    ensures Filter(p, s + [x]) == Filter(p, s) + if p(x) then [x] else []
  {
    FilterAppend(p, s, [x]);
    FilterOne(p, x);
  }

  /** `[f(x) for x in s if p(x)]`. */
  function MapFilter<T, U>(p: T -> bool, f: T -> U, s: seq<T>): seq<U> {
    if |s| == 0 then []
    else (if p(s[0]) then [f(s[0])] else []) + MapFilter(p, f, s[1..])
  }

  /** The comprehension maps the elements that pass, in order. */
  lemma {:induction false} MapFilterIsFilter<T, U>(p: T -> bool, f: T -> U, s: seq<T>)
    ensures |MapFilter(p, f, s)| == |Filter(p, s)|
    ensures forall k :: 0 <= k < |Filter(p, s)| ==> MapFilter(p, f, s)[k] == f(Filter(p, s)[k])
  {
    if |s| > 0 {
      var rest := s[1..];
      MapFilterIsFilter(p, f, rest);
      if p(s[0]) {
        var kept := [s[0]] + Filter(p, rest);
        assert Filter(p, s) == kept;
        forall k | 0 < k < |kept|
          ensures MapFilter(p, f, s)[k] == f(kept[k])
        {
          assert kept[k] == Filter(p, rest)[k - 1];
        }
      } else {
        assert MapFilter(p, f, s) == [] + MapFilter(p, f, rest);
      }
    }
  }

  /** What holds of `f(x)` for every element that passes holds of every element of the
      comprehension. */
  lemma {:induction false} MapFilterAll<T, U>(p: T -> bool, f: T -> U, q: U -> bool, s: seq<T>)
    requires forall x :: x in s && p(x) ==> q(f(x))
    ensures forall k :: 0 <= k < |MapFilter(p, f, s)| ==> q(MapFilter(p, f, s)[k])
  {
    if |s| > 0 {
      assert forall x :: x in s[1..] ==> x in s;
      MapFilterAll(p, f, q, s[1..]);
    }
  }

  /** `out` after `for x in s: if p(x): out.append(mk(x, len(out)))`. */
  function Numbered<T, U>(p: T -> bool, mk: (T, nat) -> U, s: seq<T>): seq<U> {
    if |s| == 0 then []
    else
      var init := Numbered(p, mk, s[..|s| - 1]);
      var x := s[|s| - 1];
      if p(x) then init + [mk(x, |init|)] else init
  }

  /** The loop builds one element per element that passes, in order, the i-th of them
      numbered i. */
  lemma {:induction false} NumberedIsFilter<T, U>(p: T -> bool, mk: (T, nat) -> U, s: seq<T>)
    ensures |Numbered(p, mk, s)| == |Filter(p, s)|
    ensures forall i :: 0 <= i < |Filter(p, s)| ==> Numbered(p, mk, s)[i] == mk(Filter(p, s)[i], i)
  {
    if |s| > 0 {
      var init := s[..|s| - 1];
      var x := s[|s| - 1];
      NumberedIsFilter(p, mk, init);
      assert s == init + [x];
      FilterSnoc(p, init, x);
    }
  }

  /** The batches concatenated in order. */
  function Flatten<T>(batches: seq<seq<T>>): seq<T> {
    if |batches| == 0 then [] else Flatten(batches[..|batches| - 1]) + batches[|batches| - 1]
  }

  lemma FlattenSnoc<T>(batches: seq<seq<T>>, b: seq<T>)
    ensures Flatten(batches + [b]) == Flatten(batches) + b
  {
    assert (batches + [b])[..|batches|] == batches;
  }

  /** Joining at a separator that occurs in neither tail can be undone: the last
      separator marks where the head ends. */
  lemma JoinedAtSep<T>(u1: seq<T>, d1: seq<T>, u2: seq<T>, d2: seq<T>, sep: T)
    requires sep !in d1 && sep !in d2 && u1 + [sep] + d1 == u2 + [sep] + d2
    ensures u1 == u2 && d1 == d2
  {
    var s := u1 + [sep] + d1;
    assert s[|u1|] == sep && s[|u2|] == sep;
    assert u1 == s[..|u1|] == u2;
    assert d1 == s[|u1| + 1..] == d2;
  }

  /** No element occurs twice. */
  predicate NoDup<T(==)>(s: seq<T>) {
    forall i, j :: 0 <= i < j < |s| ==> s[i] != s[j]
  }

  /** Lists the elements of a finite set once each, in an order the caller does not
      control: the shape of a query result whose ordering the database leaves open. */
  method Enumerate<T>(s: set<T>) returns (xs: seq<T>)
    ensures NoDup(xs)
    ensures |xs| == |s|
    ensures forall x :: x in xs <==> x in s
  {
    xs := [];
    var rest := s;
    while rest != {}
      invariant rest <= s
      invariant NoDup(xs)
      invariant forall x :: x in xs <==> x in s && x !in rest
      invariant |xs| + |rest| == |s|
      decreases |rest|
    {
      var x :| x in rest;
      xs := xs + [x];
      rest := rest - {x};
    }
  }
}
