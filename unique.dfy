/** Order-preserving removal of repeated elements, the reduction the service
    applies to its tag lists (a `seen` set with an output list, or
    `list(dict.fromkeys(...))`), with a characterisation that pins it down. */
module Unique {

  /** The first-occurrence reduction of `s`, defined on the last element so
      that it follows a left-to-right scan: the last element is kept exactly
      when it has not been kept already. */
  function Dedup<T(==)>(s: seq<T>): seq<T>
    decreases |s|
  {
    if s == [] then []
    else
      var rest := Dedup(s[..|s| - 1]);
      if s[|s| - 1] in rest then rest else rest + [s[|s| - 1]]
  }

  predicate NoDuplicates<T(==)>(s: seq<T>) {
    forall i, j :: 0 <= i < j < |s| ==> s[i] != s[j]
  }

  /** The position at which `x` first occurs in `s`. */
  function FirstIndex<T(==)>(s: seq<T>, x: T): (k: nat)
    requires x in s
    ensures k < |s| && s[k] == x
    ensures forall j :: 0 <= j < k ==> s[j] != x
  {
    if s[0] == x then 0 else 1 + FirstIndex(s[1..], x)
  }

  /** `r` holds exactly the elements of `s`, each once, listed in the order in
      which they first occur in `s`. */
  predicate OrderedReductionOf<T(==)>(s: seq<T>, r: seq<T>) {
    && (forall i :: 0 <= i < |r| ==> r[i] in s)
    && (forall i :: 0 <= i < |s| ==> s[i] in r)
    && (forall i, j :: 0 <= i < j < |r| ==> FirstIndex(s, r[i]) < FirstIndex(s, r[j]))
  }

  lemma FirstIndexIs<T>(s: seq<T>, x: T, k: nat)
    requires k < |s| && s[k] == x
    requires forall j :: 0 <= j < k ==> s[j] != x
    ensures FirstIndex(s, x) == k
  {
  }

  /** Appending an element does not move the first occurrence of anything
      already present, and a new element first occurs at the end. */
  lemma FirstIndexAppend<T>(p: seq<T>, x: T)
    ensures forall y :: y in p ==> y in p + [x] && FirstIndex(p + [x], y) == FirstIndex(p, y)
    ensures x !in p ==> FirstIndex(p + [x], x) == |p|
  {
    forall y | y in p
      ensures FirstIndex(p + [x], y) == FirstIndex(p, y)
    {
      var k := FirstIndex(p, y);
      FirstIndexIs(p + [x], y, k);
    }
    if x !in p {
      FirstIndexIs(p + [x], x, |p|);
    }
  }

  lemma OrderedReductionHasNoDuplicates<T>(s: seq<T>, r: seq<T>)
    requires OrderedReductionOf(s, r)
    ensures NoDuplicates(r)
  {
  }

  /** The reduction keeps every element of the input, adds none, keeps each
      once and keeps the order of first occurrence. */
  lemma {:induction false} DedupIsOrderedReduction<T>(s: seq<T>)
    ensures OrderedReductionOf(s, Dedup(s))
    ensures NoDuplicates(Dedup(s))
    decreases |s|
  {
    if s != [] {
      var p, x := s[..|s| - 1], s[|s| - 1];
      assert s == p + [x];
      var rest := Dedup(p);
      DedupIsOrderedReduction(p);
      FirstIndexAppend(p, x);
      var r := Dedup(s);
      if x in rest {
        assert r == rest;
      } else {
        assert r == rest + [x];
        forall i, j | 0 <= i < j < |r|
          ensures FirstIndex(s, r[i]) < FirstIndex(s, r[j])
        {
          if j < |rest| {
            assert r[i] == rest[i] && r[j] == rest[j];
          } else {
            assert r[i] == rest[i] && r[i] in p;
          }
        }
      }
    }
    OrderedReductionHasNoDuplicates(s, Dedup(s));
  }

  /** A reduction of `p + [x]` with `x` already in `p` is a reduction of `p`. */
  lemma ReductionOfRepeat<T>(p: seq<T>, x: T, r: seq<T>)
    requires x in p
    requires OrderedReductionOf(p + [x], r)
    ensures OrderedReductionOf(p, r)
  {
    var s := p + [x];
    FirstIndexAppend(p, x);
    forall i | 0 <= i < |r| ensures r[i] in p {
      assert r[i] in s;
    }
    forall i | 0 <= i < |p| ensures p[i] in r {
      assert s[i] == p[i];
    }
  }

  /** A reduction of `p + [x]` with `x` new ends in `x`, and what precedes it
      is a reduction of `p`. */
  lemma ReductionOfNew<T>(p: seq<T>, x: T, r: seq<T>)
    requires x !in p
    requires OrderedReductionOf(p + [x], r)
    ensures |r| > 0 && r[|r| - 1] == x
    ensures OrderedReductionOf(p, r[..|r| - 1])
  {
    var s := p + [x];
    FirstIndexAppend(p, x);
    OrderedReductionHasNoDuplicates(s, r);
    assert s[|p|] == x;
    var k :| 0 <= k < |r| && r[k] == x;
    var last := |r| - 1;
    assert r[last] in s;
    assert FirstIndex(s, r[last]) <= |p| == FirstIndex(s, r[k]);
    assert k == last;
    var q := r[..last];
    forall i | 0 <= i < |q| ensures q[i] in p {
      assert q[i] == r[i] && r[i] != r[last];
    }
    forall i | 0 <= i < |p| ensures p[i] in q {
      assert s[i] == p[i];
      var m :| 0 <= m < |r| && r[m] == p[i];
      assert m != last;
      assert q[m] == p[i];
    }
    forall i, j | 0 <= i < j < |q|
      ensures FirstIndex(p, q[i]) < FirstIndex(p, q[j])
    {
      assert q[i] == r[i] && q[j] == r[j];
      assert FirstIndex(s, r[i]) < FirstIndex(s, r[j]);
    }
  }

  /** Conversely, the ordered reduction is unique: any list with the
      elements of `s`, ordered by first occurrence, is `Dedup(s)`. */
  lemma {:induction false} OrderedReductionIsDedup<T>(s: seq<T>, r: seq<T>)
    requires OrderedReductionOf(s, r)
    ensures r == Dedup(s)
    decreases |s|
  {
    assert r == [] || r[0] in s;
    if s != [] {
      var p, x := s[..|s| - 1], s[|s| - 1];
      assert s == p + [x];
      DedupIsOrderedReduction(p);
      if x in p {
        ReductionOfRepeat(p, x, r);
        OrderedReductionIsDedup(p, r);
        assert x in Dedup(p);
      } else {
        ReductionOfNew(p, x, r);
        var q := r[..|r| - 1];
        OrderedReductionIsDedup(p, q);
        assert r == q + [x];
        assert x !in Dedup(p);
      }
    }
  }

  /** The worked example of an order-preserving reduction. */
  lemma DedupExample()
    ensures Dedup(["cat", "dog", "cat", "bird"]) == ["cat", "dog", "bird"]
  {
    assert Dedup(["cat"]) == ["cat"] by {
      assert ["cat"][..0] == [];
    }
    assert Dedup(["cat", "dog"]) == ["cat", "dog"] by {
      assert ["cat", "dog"][..1] == ["cat"];
    }
    assert Dedup(["cat", "dog", "cat"]) == ["cat", "dog"] by {
      assert ["cat", "dog", "cat"][..2] == ["cat", "dog"];
    }
    assert ["cat", "dog", "cat", "bird"][..3] == ["cat", "dog", "cat"];
  }
}
