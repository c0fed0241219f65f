/** A JavaScript `Set` of strings read back with `Array.from`: the distinct values added to it,
    in the order in which each was first added. */
module InsertionOrder {

  predicate NoDuplicates(s: seq<string>)
  {
    forall i, j :: 0 <= i < j < |s| ==> s[i] != s[j]
  }

  /** `set.add(x)` on a set whose iteration order is `s`. */
  function Add(s: seq<string>, x: string): (r: seq<string>)
    ensures x in r && (forall y :: y in r <==> y in s || y == x)
    ensures NoDuplicates(s) ==> NoDuplicates(r)
    ensures s <= r
  {
    if x in s then s else s + [x]
  }

  /** The iteration order of a set that started empty and had `xs` added one by one. */
  function Distinct(xs: seq<string>): seq<string>
    decreases |xs|
  {
    if xs == [] then [] else Add(Distinct(xs[..|xs| - 1]), xs[|xs| - 1])
  }

  /** Adding one more value to the sequence of additions. */
  lemma DistinctSnoc(xs: seq<string>, x: string)
    ensures Distinct(xs + [x]) == Add(Distinct(xs), x)
  {
    assert (xs + [x])[..|xs|] == xs;
  }

  /** Position of the first occurrence of `x` in `xs`. */
  function FirstIndex(xs: seq<string>, x: string): (k: nat)
    requires x in xs
    ensures k < |xs| && xs[k] == x && x !in xs[..k]
  {
    if xs[0] == x then 0 else 1 + FirstIndex(xs[1..], x)
  }

  /** Appending to `xs` moves no first occurrence, and the first occurrence of a new
      value is where it was appended. */
  lemma FirstIndexSnoc(xs: seq<string>, x: string, y: string)
    requires y in xs + [x]
    ensures FirstIndex(xs + [x], y) == if y in xs then FirstIndex(xs, y) else |xs|
  {
    var k := FirstIndex(xs + [x], y);
    assert (xs + [x])[..k] == if k <= |xs| then xs[..k] else xs + [x];
    if y in xs {
      var m := FirstIndex(xs, y);
      assert (xs + [x])[m] == y;
      assert k <= m by { assert (xs + [x])[..k + 1][k] == y; }
    } else {
      assert k == |xs|;
    }
  }

  /** The values of `d` appear in the order of their first occurrences in `xs`. */
  predicate InFirstSeenOrder(d: seq<string>, xs: seq<string>)
  {
    forall j, k :: 0 <= j < k < |d| ==>
      d[j] in xs && d[k] in xs && FirstIndex(xs, d[j]) < FirstIndex(xs, d[k])
  }

  /** The set holds each added value once, nothing else, and in first-added order. */
  lemma {:induction false} DistinctIsInsertionOrder(xs: seq<string>)
    ensures NoDuplicates(Distinct(xs))
    ensures forall x :: x in Distinct(xs) <==> x in xs
    ensures InFirstSeenOrder(Distinct(xs), xs)
    decreases |xs|
  {
    if xs != [] {
      var n := |xs|;
      var p, x := xs[..n - 1], xs[n - 1];
      assert xs == p + [x];
      DistinctIsInsertionOrder(p);
      var d := Distinct(p);
      assert Distinct(xs) == Add(d, x);
      forall y | y in xs ensures FirstIndex(xs, y) == if y in p then FirstIndex(p, y) else |p| {
        FirstIndexSnoc(p, x, y);
      }
    }
  }
}
