/** What several modules need: an optional value, the place of an element in a list, lists
  without repetition, the size of a subset, and some arithmetic. */
module Collections {

  /** In milliseconds: how long both registries keep a provider that is silent. */
  const FIVE_MINUTES := 300_000

  datatype Option<T> = None | Some(value: T)

  /** Where an element first is in a list, or the length of the list. */
  function Position<T(==)>(l: seq<T>, e: T, from: nat := 0): (i: nat)
    requires from <= |l|
    ensures from <= i <= |l| && (i < |l| ==> l[i] == e)
    ensures forall j :: from <= j < i ==> l[j] != e
    decreases |l| - from
  {
    if from == |l| || l[from] == e then from else Position(l, e, from + 1)
  }

  ghost predicate NoneTwice<T>(l: seq<T>) {
    forall i, j :: 0 <= i < j < |l| ==> l[i] != l[j]
  }

  lemma {:induction false} SubsetCount<T>(a: set<T>, b: set<T>)
    requires a <= b
    ensures |a| <= |b|
  {
    if a != {} {
      var x :| x in a;
      SubsetCount(a - {x}, b - {x});
    }
  }

  function Pow2(k: nat): (r: nat)
    ensures r >= 1
  {
    if k == 0 then 1 else 2 * Pow2(k - 1)
  }

  lemma MulGrows(a: nat, b: nat, x: nat)
    requires a <= b
    ensures a * x <= b * x
  {
  }

  lemma QuotientAtLeast(n: nat, a: nat, x: nat)
    requires a > 0 && a * x <= n
    ensures x <= n / a
  {
    var q := n / a;
    assert n < a * q + a;
    if x > q {
      MulGrows(q + 1, x, a);
    }
  }

  lemma Assoc<T>(a: seq<T>, b: seq<T>, c: seq<T>)
    ensures (a + b) + c == a + (b + c)
  {
  }
}
