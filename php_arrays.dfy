/**
  PHP's `array_diff` on lists of strings, as the binder uses it.

  `array_diff($a, $b)` keeps every element of `$a` whose string form does not
  occur in `$b`. It is a filter: the kept elements stay in their original order
  and duplicates inside `$a` are kept. It is not a set difference.
 */
module PhpArrays {

  /** The elements of `a` that do not occur in `b`, in the order of `a`. */
  function Diff(a: seq<string>, b: seq<string>): (r: seq<string>)
    ensures forall x :: x in r <==> x in a && x !in b
    ensures |r| <= |a|
  {
    if a == [] then []
    else if a[0] in b then Diff(a[1..], b)
    else [a[0]] + Diff(a[1..], b)
  }

  /** Duplicates survive: each kept value occurs as often as it did in `a`. */
  lemma {:induction false} DiffKeepsMultiplicity(a: seq<string>, b: seq<string>, x: string)
    ensures multiset(Diff(a, b))[x] == if x in b then 0 else multiset(a)[x]
  {
    if a != [] {
      DiffKeepsMultiplicity(a[1..], b, x);
      assert a == [a[0]] + a[1..];
    }
  }

  /** Order is kept: filtering a concatenation filters each part in place. */
  lemma {:induction false} DiffOfConcat(a1: seq<string>, a2: seq<string>, b: seq<string>)
    ensures Diff(a1 + a2, b) == Diff(a1, b) + Diff(a2, b)
  {
    if a1 == [] {
      assert a1 + a2 == a2;
    } else {
      var a := a1 + a2;
      assert a[0] == a1[0] && a[1..] == a1[1..] + a2;
      DiffOfConcat(a1[1..], a2, b);
      if a1[0] in b {
        assert Diff(a, b) == Diff(a1[1..] + a2, b);
      } else {
        assert Diff(a, b) == [a1[0]] + Diff(a1[1..] + a2, b);
      }
    }
  }

  /** Nothing is left exactly when every element of `a` occurs in `b`. */
  lemma DiffEmptyIff(a: seq<string>, b: seq<string>)
    ensures Diff(a, b) == [] <==> forall x :: x in a ==> x in b
  {
    if Diff(a, b) != [] {
      assert Diff(a, b)[0] in Diff(a, b);
    }
  }
}
