/** The JavaScript array operations the dashboard uses on sequences: `find` and the
    de-duplication `[...new Set(xs)]`. */
module JsArray {
  import opened Wrappers

  predicate NoDuplicates<T(==)>(xs: seq<T>) {
    forall i, j :: 0 <= i < j < |xs| ==> xs[i] != xs[j]
  }

  /** The index of the first occurrence of `x` in `xs`. */
  function FirstIndex<T(==)>(xs: seq<T>, x: T): (i: nat)
    requires x in xs
    ensures i < |xs| && xs[i] == x && x !in xs[..i]
  {
    if xs[0] == x then 0 else FirstIndex(xs[1..], x) + 1
  }

  /** The first occurrence of `x` in `xs` is also its first occurrence in any longer
      sequence that starts with `xs`. */
  lemma {:induction false} FirstIndexPrefix<T>(xs: seq<T>, ys: seq<T>, x: T)
    requires x in xs
    ensures x in xs + ys && FirstIndex(xs + ys, x) == FirstIndex(xs, x)
  {
    if xs[0] != x {
      assert (xs + ys)[1..] == xs[1..] + ys;
      FirstIndexPrefix(xs[1..], ys, x);
    }
  }

  /** `xs.find(p)`: the first element satisfying `p`, or `None` (`undefined`) when there is none. */
  function Find<T>(xs: seq<T>, p: T -> bool): (r: Option<T>)
    ensures r.None? <==> forall i :: 0 <= i < |xs| ==> !p(xs[i])
    ensures r.Some? ==> exists i :: 0 <= i < |xs| && xs[i] == r.value && p(xs[i])
                                    && forall j :: 0 <= j < i ==> !p(xs[j])
  {
    if xs == [] then None
    else if p(xs[0]) then Some(xs[0])
    else
      var r := Find(xs[1..], p);
      assert r.Some? ==> exists i :: 1 <= i < |xs| && xs[i] == r.value && p(xs[i])
                                     && forall j :: 0 <= j < i ==> !p(xs[j]) by {
        if r.Some? {
          var i :| 0 <= i < |xs[1..]| && xs[1..][i] == r.value && p(xs[1..][i])
                   && forall j :: 0 <= j < i ==> !p(xs[1..][j]);
          assert forall j :: 1 <= j < i + 1 ==> xs[j] == xs[1..][j - 1];
        }
      }
      r
  }

  /** `r` holds every distinct element of `xs` exactly once, in the order of first
      occurrence. */
  predicate DistinctInOrder<T(==)>(xs: seq<T>, r: seq<T>) {
    (forall i :: 0 <= i < |xs| ==> xs[i] in r)
    && (forall i :: 0 <= i < |r| ==> r[i] in xs)
    && NoDuplicates(r)
    && (forall i, j :: 0 <= i < j < |r| ==> FirstIndex(xs, r[i]) < FirstIndex(xs, r[j]))
  }

  /** `[...new Set(xs)]`: every distinct element of `xs` exactly once, in the order of
      first occurrence. */
  function Dedup<T(==)>(xs: seq<T>): (r: seq<T>)
    ensures forall i :: 0 <= i < |xs| ==> xs[i] in r
    ensures forall i :: 0 <= i < |r| ==> r[i] in xs
    ensures NoDuplicates(r)
    ensures forall i, j :: 0 <= i < j < |r| ==> FirstIndex(xs, r[i]) < FirstIndex(xs, r[j])
  {
    if xs == [] then []
    else
      var d := Dedup(xs[..|xs| - 1]);
      DedupStep(xs, d);
      if xs[|xs| - 1] in d then d else d + [xs[|xs| - 1]]
  }

  /** Adding an element at the end keeps a de-duplication one when it is kept only if new. */
  lemma DedupStep<T>(xs: seq<T>, d: seq<T>)
    requires xs != [] && DistinctInOrder(xs[..|xs| - 1], d)
    ensures DistinctInOrder(xs, if xs[|xs| - 1] in d then d else d + [xs[|xs| - 1]])
  {
    var init := xs[..|xs| - 1];
    var x := xs[|xs| - 1];
    assert xs == init + [x];
    if x in d {
      DedupSeen(init, x, d);
    } else {
      DedupNew(init, x, d);
    }
  }

  /** An element seen before adds nothing. */
  lemma DedupSeen<T>(init: seq<T>, x: T, d: seq<T>)
    requires DistinctInOrder(init, d) && x in d
    ensures DistinctInOrder(init + [x], d)
  {
    FirstIndexesKept(init, x, d);
    assert forall i :: 0 <= i < |init| ==> (init + [x])[i] == init[i];
  }

  /** A new element goes after everything kept so far. */
  lemma DedupNew<T>(init: seq<T>, x: T, d: seq<T>)
    requires DistinctInOrder(init, d) && x !in d
    ensures DistinctInOrder(init + [x], d + [x])
  {
    assert x !in init;
    FirstIndexesKept(init, x, d);
    FirstIndexOfNew(init, x);
    AppendCovers(init, x, d);
    AppendOrdered(init + [x], d, x, d + [x]);
  }

  /** Appending the new element to a sequence that covers `init` covers `init + [x]`. */
  lemma AppendCovers<T>(init: seq<T>, x: T, d: seq<T>)
    requires forall i :: 0 <= i < |init| ==> init[i] in d
    ensures forall i :: 0 <= i < |init + [x]| ==> (init + [x])[i] in d + [x]
  {
    var xs := init + [x];
    var r := d + [x];
    forall i | 0 <= i < |xs| ensures xs[i] in r {
      if i < |init| {
        assert xs[i] == init[i];
        var k :| 0 <= k < |d| && d[k] == init[i];
        assert r[k] == d[k];
      } else {
        assert r[|d|] == x;
      }
    }
  }

  /** Appending an element found after all of `d` keeps `d` distinct and in order. */
  lemma AppendOrdered<T>(xs: seq<T>, d: seq<T>, x: T, r: seq<T>)
    requires xs != [] && x == xs[|xs| - 1] && r == d + [x]
    requires NoDuplicates(d) && x !in d
    requires forall i :: 0 <= i < |d| ==> d[i] in xs && FirstIndex(xs, d[i]) < |xs| - 1
    requires x in xs && FirstIndex(xs, x) == |xs| - 1
    requires forall i, j :: 0 <= i < j < |d| ==> FirstIndex(xs, d[i]) < FirstIndex(xs, d[j])
    ensures forall i :: 0 <= i < |r| ==> r[i] in xs
    ensures NoDuplicates(r)
    ensures forall i, j :: 0 <= i < j < |r| ==> FirstIndex(xs, r[i]) < FirstIndex(xs, r[j])
  {
    forall i | 0 <= i < |r| ensures r[i] in xs {
      if i < |d| { assert r[i] == d[i]; }
    }
    forall i, j | 0 <= i < j < |r| ensures r[i] != r[j] && FirstIndex(xs, r[i]) < FirstIndex(xs, r[j]) {
      assert r[i] == d[i];
      if j == |d| {
        assert r[j] == x;
      } else {
        assert r[j] == d[j];
      }
    }
  }

  /** The elements already present keep their first positions when one more is appended. */
  lemma FirstIndexesKept<T>(init: seq<T>, x: T, d: seq<T>)
    requires forall i :: 0 <= i < |d| ==> d[i] in init
    ensures forall i :: 0 <= i < |d| ==>
              d[i] in init + [x] && FirstIndex(init + [x], d[i]) == FirstIndex(init, d[i]) < |init|
  {
    forall i | 0 <= i < |d|
      ensures d[i] in init + [x] && FirstIndex(init + [x], d[i]) == FirstIndex(init, d[i]) < |init|
    {
      FirstIndexPrefix(init, [x], d[i]);
    }
  }

  /** A new element appended at the end is first found there. */
  lemma FirstIndexOfNew<T>(init: seq<T>, x: T)
    requires x !in init
    ensures x in init + [x] && FirstIndex(init + [x], x) == |init|
  {
    assert (init + [x])[..|init|] == init;
    assert (init + [x])[|init|] == x;
  }

  /** `xs.filter(p).map(f)`: the images under `f` of the elements satisfying `p`, in order. */
  function FilterMap<T, U(==)>(xs: seq<T>, p: T -> bool, f: T -> U): (r: seq<U>)
    ensures forall i :: 0 <= i < |xs| && p(xs[i]) ==> f(xs[i]) in r
    ensures forall k :: 0 <= k < |r| ==> exists i :: 0 <= i < |xs| && p(xs[i]) && r[k] == f(xs[i])
    ensures r == [] <==> forall i :: 0 <= i < |xs| ==> !p(xs[i])
  {
    if xs == [] then []
    else
      var rest := FilterMap(xs[1..], p, f);
      FilterMapStep(xs, p, f, rest);
      (if p(xs[0]) then [f(xs[0])] else []) + rest
  }

  /** The recursive step of `FilterMap`: the head's image, when it passes, in front of what
      the tail gives. */
  lemma FilterMapStep<T, U>(xs: seq<T>, p: T -> bool, f: T -> U, rest: seq<U>)
    requires xs != []
    requires forall i :: 0 <= i < |xs[1..]| && p(xs[1..][i]) ==> f(xs[1..][i]) in rest
    requires forall k :: 0 <= k < |rest| ==>
               exists i :: 0 <= i < |xs[1..]| && p(xs[1..][i]) && rest[k] == f(xs[1..][i])
    requires rest == [] <==> forall i :: 0 <= i < |xs[1..]| ==> !p(xs[1..][i])
    ensures var r := (if p(xs[0]) then [f(xs[0])] else []) + rest;
            (forall i :: 0 <= i < |xs| && p(xs[i]) ==> f(xs[i]) in r)
            && (forall k :: 0 <= k < |r| ==> exists i :: 0 <= i < |xs| && p(xs[i]) && r[k] == f(xs[i]))
            && (r == [] <==> forall i :: 0 <= i < |xs| ==> !p(xs[i]))
  {
    var head := if p(xs[0]) then [f(xs[0])] else [];
    var r := head + rest;
    forall i | 0 <= i < |xs| && p(xs[i]) ensures f(xs[i]) in r {
      if i > 0 {
        assert xs[i] == xs[1..][i - 1];
      }
    }
    forall k | 0 <= k < |r| ensures exists i :: 0 <= i < |xs| && p(xs[i]) && r[k] == f(xs[i]) {
      if k < |head| {
        assert r[k] == f(xs[0]);
      } else {
        assert r[k] == rest[k - |head|];
        var i :| 0 <= i < |xs[1..]| && p(xs[1..][i]) && rest[k - |head|] == f(xs[1..][i]);
        assert xs[i + 1] == xs[1..][i];
      }
    }
    assert (forall i :: 0 <= i < |xs| ==> !p(xs[i])) ==> forall i :: 0 <= i < |xs[1..]| ==> !p(xs[1..][i]);
  }

  /** De-duplicating keeps exactly the elements there were. */
  lemma DedupSameElements<T>(xs: seq<T>, y: T)
    ensures y in Dedup(xs) <==> y in xs
  {
    var r := Dedup(xs);
    if y in xs {
      var i :| 0 <= i < |xs| && xs[i] == y;
    }
    if y in r {
      var i :| 0 <= i < |r| && r[i] == y;
    }
  }

  /** `[...new Set(xs.filter(p).map(f))]` holds `y` exactly when `y` is the image of some
      element satisfying `p`. */
  lemma DedupFilterMapMembers<T, U>(xs: seq<T>, p: T -> bool, f: T -> U, y: U)
    ensures y in Dedup(FilterMap(xs, p, f)) <==> exists i :: 0 <= i < |xs| && p(xs[i]) && y == f(xs[i])
  {
    var fm := FilterMap(xs, p, f);
    DedupSameElements(fm, y);
    if y in fm {
      var k :| 0 <= k < |fm| && fm[k] == y;
    }
  }
}
