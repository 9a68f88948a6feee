/**
 * A JavaScript `Set` of values, which remembers insertion order: adding a
 * value that is already present changes nothing, and `Array.from` lists the
 * values in the order they were first added.
 */
module OrderedSet {

  predicate NoDuplicates<T(==)>(s: seq<T>) {
    forall i, j :: 0 <= i < j < |s| ==> s[i] != s[j]
  }

  /** `set.add(x)` */
  function Add<T(==)>(s: seq<T>, x: T): seq<T> {
    if x in s then s else s + [x]
  }

  /** The set `acc` after `add`ing every element of `xs`, left to right. */
  function AddAll<T(==)>(acc: seq<T>, xs: seq<T>): seq<T>
    decreases |xs|
  {
    if xs == [] then acc else Add(AddAll(acc, xs[..|xs| - 1]), xs[|xs| - 1])
  }

  /** `Array.from(new Set(xs))` */
  function Dedup<T(==)>(xs: seq<T>): seq<T> {
    AddAll([], xs)
  }

  /** The position of the first occurrence of `x` in `s`. */
  function FirstIndex<T(==)>(s: seq<T>, x: T): (k: nat)
    requires x in s
    ensures k < |s| && s[k] == x && x !in s[..k]
  {
    if s[0] == x then 0 else 1 + FirstIndex(s[1..], x)
  }

  lemma {:induction false} AddAllElements<T>(acc: seq<T>, xs: seq<T>)
    ensures forall x :: x in AddAll(acc, xs) <==> x in acc || x in xs
    decreases |xs|
  {
    if xs != [] {
      var init := xs[..|xs| - 1];
      AddAllElements(acc, init);
      assert xs == init + [xs[|xs| - 1]];
    }
  }

  lemma {:induction false} AddAllNoDuplicates<T>(acc: seq<T>, xs: seq<T>)
    requires NoDuplicates(acc)
    ensures NoDuplicates(AddAll(acc, xs))
    decreases |xs|
  {
    if xs != [] {
      AddAllNoDuplicates(acc, xs[..|xs| - 1]);
    }
  }

  /** Adding one more value after a list of them. */
  lemma AddAllSnoc<T>(acc: seq<T>, xs: seq<T>, y: T)
    ensures AddAll(acc, xs + [y]) == Add(AddAll(acc, xs), y)
  {
    assert (xs + [y])[..|xs|] == xs;
  }

  /** Adding values none of which is already present, nor repeated, appends them all. */
  lemma {:induction false} AddAllDistinct<T>(acc: seq<T>, xs: seq<T>)
    requires NoDuplicates(acc + xs)
    ensures AddAll(acc, xs) == acc + xs
    decreases |xs|
  {
    if xs != [] {
      var init, x := xs[..|xs| - 1], xs[|xs| - 1];
      assert acc + xs == (acc + init) + [x];
      assert NoDuplicates(acc + init) by {
        forall i, j | 0 <= i < j < |acc + init|
          ensures (acc + init)[i] != (acc + init)[j]
        {
          assert (acc + init)[i] == (acc + xs)[i] && (acc + init)[j] == (acc + xs)[j];
        }
      }
      AddAllDistinct(acc, init);
      assert x !in acc + init by {
        forall i | 0 <= i < |acc + init|
          ensures (acc + init)[i] != x
        {
          assert (acc + init)[i] == (acc + xs)[i] && x == (acc + xs)[|acc + xs| - 1];
        }
      }
    }
  }

  /** `AddAll` over a concatenation is `AddAll` over each part in turn. */
  lemma {:induction false} AddAllConcat<T>(acc: seq<T>, a: seq<T>, b: seq<T>)
    ensures AddAll(acc, a + b) == AddAll(AddAll(acc, a), b)
    decreases |b|
  {
    if b == [] {
      assert a + b == a;
    } else {
      var init := b[..|b| - 1];
      assert (a + b)[..|a + b| - 1] == a + init;
      AddAllConcat(acc, a, init);
    }
  }

  /** The set holds exactly the values of `xs`. */
  lemma DedupElements<T>(xs: seq<T>)
    ensures forall x :: x in Dedup(xs) <==> x in xs
  {
    AddAllElements([], xs);
  }

  /** Each value is held once. */
  lemma DedupNoDuplicates<T>(xs: seq<T>)
    ensures NoDuplicates(Dedup(xs))
  {
    AddAllNoDuplicates([], xs);
  }

  lemma {:induction false} FirstIndexOfExtension<T>(s: seq<T>, y: T, x: T)
    requires x in s
    ensures x in s + [y] && FirstIndex(s + [y], x) == FirstIndex(s, x)
  {
    if s[0] != x {
      assert (s + [y])[1..] == s[1..] + [y];
      FirstIndexOfExtension(s[1..], y, x);
    }
  }

  /** The values are listed in the order of their first occurrence in `xs`. */
  lemma {:induction false} DedupFirstOccurrenceOrder<T>(xs: seq<T>)
    ensures forall x :: x in Dedup(xs) ==> x in xs
    ensures forall i, j :: 0 <= i < j < |Dedup(xs)| ==>
              FirstIndex(xs, Dedup(xs)[i]) < FirstIndex(xs, Dedup(xs)[j])
    decreases |xs|
  {
    DedupElements(xs);
    if xs != [] {
      var init, y := xs[..|xs| - 1], xs[|xs| - 1];
      assert xs == init + [y];
      var p := Dedup(init);
      DedupFirstOccurrenceOrder(init);
      DedupElements(init);
      forall x | x in p
        ensures FirstIndex(xs, x) == FirstIndex(init, x)
      {
        FirstIndexOfExtension(init, y, x);
      }
      if y !in p {
        assert FirstIndex(xs, y) == |init| by {
          assert xs[|init|] == y && y !in xs[..|init|];
        }
      }
    }
  }

  /** A set built from a list is empty exactly when the list is. */
  lemma DedupEmpty<T>(xs: seq<T>)
    ensures |Dedup(xs)| > 0 <==> |xs| > 0
  {
    DedupElements(xs);
    if |xs| > 0 {
      assert xs[0] in Dedup(xs);
    }
  }
}
