/** The list operations the components perform on arrays and form arrays:
    `filter(y => y !== x)`, `indexOf`/`findIndex`, `splice(i, 1)` and Angular's
    `FormArray.removeAt`, which accepts a negative index. */
module Lists {

  predicate NoDup<T(==)>(xs: seq<T>) {
    forall i, j :: 0 <= i < j < |xs| ==> xs[i] != xs[j]
  }

  /** `xs.filter(y => y !== x)`: every other element, in order. */
  function RemoveAll<T(==)>(xs: seq<T>, x: T): (r: seq<T>)
    ensures x !in r
    ensures forall i :: 0 <= i < |r| ==> r[i] in xs
    ensures forall i :: 0 <= i < |xs| && xs[i] != x ==> xs[i] in r
    ensures |r| <= |xs|
    ensures x !in xs ==> r == xs
  {
    if xs == [] then []
    else if xs[0] == x then RemoveAll(xs[1..], x)
    else [xs[0]] + RemoveAll(xs[1..], x)
  }

  lemma {:induction false} RemoveAllNoDup<T>(xs: seq<T>, x: T)
    requires NoDup(xs)
    ensures NoDup(RemoveAll(xs, x))
  {
    if xs != [] {
      RemoveAllNoDup(xs[1..], x);
      assert xs[0] !in xs[1..];
    }
  }

  /** With no duplicates, removing an element present once shortens the list by
      exactly one. */
  lemma {:induction false} RemoveAllLength<T>(xs: seq<T>, x: T)
    requires NoDup(xs) && x in xs
    ensures |RemoveAll(xs, x)| == |xs| - 1
  {
    if xs[0] == x {
      assert x !in xs[1..];
    } else {
      RemoveAllLength(xs[1..], x);
    }
  }

  lemma {:induction false} RemoveAllAppend<T>(xs: seq<T>, ys: seq<T>, x: T)
    ensures RemoveAll(xs + ys, x) == RemoveAll(xs, x) + RemoveAll(ys, x)
  {
    if xs != [] {
      RemoveAllAppend(xs[1..], ys, x);
      assert (xs + ys)[1..] == xs[1..] + ys;
    } else {
      assert xs + ys == ys;
    }
  }

  /** `xs.indexOf(x)`: the first position holding `x`, or -1. */
  function IndexOf<T(==)>(xs: seq<T>, x: T): (i: int)
    ensures -1 <= i < |xs|
    ensures i == -1 <==> x !in xs
    ensures 0 <= i ==> xs[i] == x && x !in xs[..i]
  {
    if xs == [] then -1
    else if xs[0] == x then 0
    else
      var k := IndexOf(xs[1..], x);
      assert 0 <= k ==> xs[..k + 1] == [xs[0]] + xs[1..][..k];
      if k == -1 then -1 else k + 1
  }

  /** `xs.splice(i, 1)` for a position inside the list. */
  function RemoveAt<T>(xs: seq<T>, i: nat): (r: seq<T>)
    requires i < |xs|
    ensures |r| == |xs| - 1
    ensures forall k :: 0 <= k < i ==> r[k] == xs[k]
    ensures forall k :: i <= k < |r| ==> r[k] == xs[k + 1]
  {
    xs[..i] + xs[i + 1..]
  }

  /** Angular's `FormArray.removeAt(index)`: a negative index counts from the
      end (`index + length`), an index still negative becomes 0, and
      `splice(index, 1)` then removes nothing when the index is past the end. */
  function FormArrayRemoveAt<T>(xs: seq<T>, index: int): (r: seq<T>)
    ensures index == -1 && xs != [] ==> r == xs[..|xs| - 1]
    ensures xs == [] ==> r == []
    ensures 0 <= index < |xs| ==> r == RemoveAt(xs, index)
    ensures index >= |xs| ==> r == xs
  {
    var adjusted := if index < 0 then index + |xs| else index;
    var k := if adjusted < 0 then 0 else adjusted;
    if k < |xs| then RemoveAt(xs, k) else xs
  }

  /** Removing the first occurrence, as `removeAt(findIndex(...))` does when
      the element is present, and dropping the last element when it is not. */
  lemma FormArrayRemoveAtIndexOf<T>(xs: seq<T>, x: T)
    ensures x in xs ==> FormArrayRemoveAt(xs, IndexOf(xs, x)) == RemoveAt(xs, IndexOf(xs, x))
    ensures x !in xs && xs != [] ==> FormArrayRemoveAt(xs, IndexOf(xs, x)) == xs[..|xs| - 1]
    ensures x !in xs && xs == [] ==> FormArrayRemoveAt(xs, IndexOf(xs, x)) == []
  {
  }

  /** Without duplicates, removing the first occurrence removes every
      occurrence. */
  lemma NoDupTail<T>(xs: seq<T>)
    requires NoDup(xs) && xs != []
    ensures NoDup(xs[1..]) && xs[0] !in xs[1..]
  {
    var t := xs[1..];
    forall i, j | 0 <= i < j < |t| ensures t[i] != t[j] {
      assert t[i] == xs[i + 1] && t[j] == xs[j + 1];
    }
    forall j | 0 <= j < |t| ensures t[j] != xs[0] {
      assert t[j] == xs[j + 1];
    }
  }

  lemma RemoveAtCons<T>(xs: seq<T>, k: nat)
    requires k + 1 < |xs|
    ensures RemoveAt(xs, k + 1) == [xs[0]] + RemoveAt(xs[1..], k)
  {
    assert xs[..k + 1] == [xs[0]] + xs[1..][..k];
    assert xs[k + 2..] == xs[1..][k + 1..];
  }

  lemma IndexOfCons<T>(xs: seq<T>, x: T)
    requires xs != [] && xs[0] != x
    ensures IndexOf(xs, x) == if x in xs[1..] then IndexOf(xs[1..], x) + 1 else -1
  {
  }

  lemma {:induction false} RemoveFirstIsRemoveAll<T>(xs: seq<T>, x: T)
    requires NoDup(xs) && x in xs
    ensures RemoveAt(xs, IndexOf(xs, x)) == RemoveAll(xs, x)
  {
    NoDupTail(xs);
    if xs[0] != x {
      var t := xs[1..];
      assert x in t;
      IndexOfCons(xs, x);
      var k := IndexOf(t, x);
      RemoveFirstIsRemoveAll(t, x);
      RemoveAtCons(xs, k);
    } else {
      assert RemoveAt(xs, 0) == xs[1..];
    }
  }
}
