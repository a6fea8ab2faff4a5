/** Small shared vocabulary: optional values, calls that may raise, and
    duplicate-free sequences (the model of `Stream.distinct`). */
module Base {

  /** Java's nullable references and `Optional`. */
  datatype Option<+T> = None | Some(value: T)

  /** The outcome of one call into code that may throw. */
  datatype Try<+T> = Ok(value: T) | Raised

  /** The set of elements of a sequence. */
  function Elements<T>(xs: seq<T>): set<T> {
    set x | x in xs
  }

  predicate NoDuplicates<T(==)>(xs: seq<T>) {
    forall i, j :: 0 <= i < j < |xs| ==> xs[i] != xs[j]
  }

  /** A duplicate-free sequence has as many elements as its set. */
  lemma {:induction false} NoDuplicatesCardinality<T>(xs: seq<T>)
    requires NoDuplicates(xs)
    ensures |Elements(xs)| == |xs|
  {
    if xs != [] {
      var init := xs[..|xs| - 1];
      var last := xs[|xs| - 1];
      assert NoDuplicates(init);
      NoDuplicatesCardinality(init);
      assert last !in init by {
        forall i | 0 <= i < |init| ensures init[i] != last {
          assert xs[i] == init[i];
        }
      }
      assert Elements(xs) == Elements(init) + {last} by {
        assert xs == init + [last];
      }
    }
  }

  /** The position of the first occurrence of `x` in `xs`. */
  function FirstIndex<T(==)>(xs: seq<T>, x: T): (i: nat)
    requires x in xs
    ensures i < |xs| && xs[i] == x && x !in xs[..i]
  {
    var init := xs[..|xs| - 1];
    assert xs == init + [xs[|xs| - 1]];
    if x in init then
      var i := FirstIndex(init, x);
      assert xs[..i] == init[..i];
      i
    else
      |xs| - 1
  }

  /** `Stream.distinct`: keeps the first occurrence of every element, in
      encounter order. */
  function Distinct<T(==)>(xs: seq<T>): (r: seq<T>)
    ensures NoDuplicates(r)
    ensures Elements(r) == Elements(xs)
    ensures |r| == |Elements(xs)|
    ensures |r| <= |xs|
    ensures forall i :: 0 <= i < |r| ==> r[i] in xs
    ensures forall i, j :: 0 <= i < j < |r| ==> FirstIndex(xs, r[i]) < FirstIndex(xs, r[j])
  {
    if xs == [] then []
    else
      var init := xs[..|xs| - 1];
      var last := xs[|xs| - 1];
      assert xs == init + [last];
      var d := Distinct(init);
      var r := if last in d then d else d + [last];
      DistinctStep(xs, init, last, d, r);
      DistinctOrderStep(xs, init, last, d, r);
      r
  }

  /** One step of `Distinct`: appending the next element when it is new
      keeps the result duplicate-free and with the same elements. */
  lemma DistinctStep<T>(xs: seq<T>, init: seq<T>, last: T, d: seq<T>, r: seq<T>)
    requires xs == init + [last]
    requires NoDuplicates(d) && Elements(d) == Elements(init) && |d| <= |init|
    requires r == if last in d then d else d + [last]
    ensures NoDuplicates(r) && Elements(r) == Elements(xs)
    ensures |r| == |Elements(xs)| && |r| <= |xs|
  {
    ElementsSnoc(init, last);
    if last in d {
      assert last in Elements(d);
    } else {
      ElementsSnoc(d, last);
      NoDuplicatesSnoc(d, last);
    }
    NoDuplicatesCardinality(r);
  }

  lemma ElementsSnoc<T>(s: seq<T>, x: T)
    ensures Elements(s + [x]) == Elements(s) + {x}
  {
    assert forall y :: y in s + [x] <==> y in s || y == x;
  }

  lemma NoDuplicatesSnoc<T>(s: seq<T>, x: T)
    requires NoDuplicates(s) && x !in s
    ensures NoDuplicates(s + [x])
  {
    var t := s + [x];
    forall i, j | 0 <= i < j < |t| ensures t[i] != t[j] {
      assert t[i] == s[i];
      if j < |s| {
        assert t[j] == s[j];
      }
    }
  }

  /** Appending an element keeps the first occurrences already present,
      and puts a new element's first occurrence at the end. */
  lemma FirstIndexSnoc<T>(init: seq<T>, last: T, y: T)
    requires y in init || y == last
    ensures y in init ==> FirstIndex(init + [last], y) == FirstIndex(init, y) < |init|
    ensures y !in init ==> FirstIndex(init + [last], y) == |init|
  {
    assert (init + [last])[..|init|] == init;
  }

  /** One step of `Distinct`: the first occurrences in the prefix keep their
      positions, and a new last element comes after all of them. */
  lemma DistinctOrderStep<T>(xs: seq<T>, init: seq<T>, last: T, d: seq<T>, r: seq<T>)
    requires xs == init + [last]
    requires Elements(d) == Elements(init)
    requires forall i :: 0 <= i < |d| ==> d[i] in init
    requires forall i, j :: 0 <= i < j < |d| ==> FirstIndex(init, d[i]) < FirstIndex(init, d[j])
    requires r == if last in d then d else d + [last]
    ensures forall i :: 0 <= i < |r| ==> r[i] in xs
    ensures forall i, j :: 0 <= i < j < |r| ==> FirstIndex(xs, r[i]) < FirstIndex(xs, r[j])
  {
    forall i | 0 <= i < |r| ensures r[i] in xs {
      if i < |d| {
        assert r[i] in Elements(d);
      }
    }
    forall i, j | 0 <= i < j < |r|
      ensures FirstIndex(xs, r[i]) < FirstIndex(xs, r[j])
    {
      assert r[i] in Elements(d);
      FirstIndexSnoc(init, last, r[i]);
      if j < |d| {
        assert r[j] in Elements(d);
      } else {
        assert r[j] == last && last !in Elements(d);
      }
      FirstIndexSnoc(init, last, r[j]);
    }
  }
}
