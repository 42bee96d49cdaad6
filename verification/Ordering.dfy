// Go's string order and sort.SliceStable.
module Ordering {

  // a < b on strings: lexicographic on the code units.
  predicate Less(a: string, b: string) {
    if b == "" then false
    else if a == "" then true
    else if a[0] != b[0] then a[0] < b[0]
    else Less(a[1..], b[1..])
  }

  lemma {:induction false} LessTotal(a: string, b: string)
    ensures Less(a, b) || Less(b, a) || a == b
    ensures !(Less(a, b) && Less(b, a)) && !Less(a, a)
  {
    if a != "" && b != "" && a[0] == b[0] {
      LessTotal(a[1..], b[1..]);
      LessTotal(a[1..], a[1..]);
      assert a == [a[0]] + a[1..] && b == [b[0]] + b[1..];
    } else if a != "" {
      LessTotal(a[1..], a[1..]);
    }
  }

  lemma {:induction false} LessTransitive(a: string, b: string, c: string)
    requires Less(a, b) && Less(b, c)
    ensures Less(a, c)
  {
    if a != "" && a[0] == b[0] == c[0] {
      LessTransitive(a[1..], b[1..], c[1..]);
    }
  }

  // ---- Sorting ------------------------------------------------------------------

  // Moves x left past every element it precedes, as the insertion sort inside
  // SliceStable does.
  function InsertLast<T>(xs: seq<T>, x: T, less: (T, T) -> bool): seq<T> {
    if xs == [] || !less(x, xs[|xs| - 1]) then xs + [x]
    else InsertLast(xs[..|xs| - 1], x, less) + [xs[|xs| - 1]]
  }

  function StableSort<T>(xs: seq<T>, less: (T, T) -> bool): seq<T> {
    if xs == [] then [] else InsertLast(StableSort(xs[..|xs| - 1], less), xs[|xs| - 1], less)
  }

  lemma {:induction false} InsertPermutes<T>(xs: seq<T>, x: T, less: (T, T) -> bool)
    ensures multiset(InsertLast(xs, x, less)) == multiset(xs) + multiset{x}
  {
    if xs != [] && less(x, xs[|xs| - 1]) {
      InsertPermutes(xs[..|xs| - 1], x, less);
      assert xs == xs[..|xs| - 1] + [xs[|xs| - 1]];
    }
  }

  // Whatever the comparator, sorting loses and invents nothing.
  lemma {:induction false} SortPermutes<T>(xs: seq<T>, less: (T, T) -> bool)
    ensures multiset(StableSort(xs, less)) == multiset(xs)
  {
    if xs != [] {
      SortPermutes(xs[..|xs| - 1], less);
      InsertPermutes(StableSort(xs[..|xs| - 1], less), xs[|xs| - 1], less);
      assert xs == xs[..|xs| - 1] + [xs[|xs| - 1]];
    }
  }

  // The contract sort.SliceStable asks of a comparator.
  ghost predicate StrictWeakOrder<T(!new)>(less: (T, T) -> bool) {
    && (forall x, y :: less(x, y) ==> !less(y, x))
    && (forall x, y, z :: less(x, z) ==> less(x, y) || less(y, z))
  }

  ghost predicate Ascending<T>(xs: seq<T>, less: (T, T) -> bool) {
    forall i, j | 0 <= i < j < |xs| :: !less(xs[j], xs[i])
  }

  // Elements the comparator cannot separate are equal.
  ghost predicate Separates<T>(xs: seq<T>, less: (T, T) -> bool) {
    forall x, y | x in xs && y in xs && !less(x, y) && !less(y, x) :: x == y
  }

  // The same on the elements of one list.
  ghost predicate StrictWeakOn<T>(xs: seq<T>, less: (T, T) -> bool) {
    && (forall x, y | x in xs && y in xs :: less(x, y) ==> !less(y, x))
    && (forall x, y, z | x in xs && y in xs && z in xs :: less(x, z) ==> less(x, y) || less(y, z))
  }

  lemma {:induction false} InsertAscending<T>(xs: seq<T>, x: T, less: (T, T) -> bool, all: seq<T>)
    requires StrictWeakOn(all, less) && Ascending(xs, less)
    requires x in all && forall i | 0 <= i < |xs| :: xs[i] in all
    ensures Ascending(InsertLast(xs, x, less), less)
  {
    if xs != [] {
      var init, last := xs[..|xs| - 1], xs[|xs| - 1];
      if less(x, last) {
        InsertAscending(init, x, less, all);
        InsertPermutes(init, x, less);
        var ys := InsertLast(init, x, less);
        forall k | 0 <= k < |ys|
          ensures !less(last, ys[k])
        {
          assert ys[k] in multiset(ys);
          if ys[k] != x {
            var m :| 0 <= m < |init| && init[m] == ys[k];
            assert xs[m] == ys[k];
          }
        }
      } else {
        forall k | 0 <= k < |xs|
          ensures !less(x, xs[k])
        {
          assert xs[k] in all && (k == |xs| - 1 || !less(last, xs[k]));
        }
      }
    }
  }

  lemma {:induction false} SortAscendingOn<T>(xs: seq<T>, less: (T, T) -> bool, all: seq<T>)
    requires StrictWeakOn(all, less) && forall i | 0 <= i < |xs| :: xs[i] in all
    ensures Ascending(StableSort(xs, less), less)
  {
    if xs != [] {
      var init := xs[..|xs| - 1];
      SortAscendingOn(init, less, all);
      SortPermutes(init, less);
      var ys := StableSort(init, less);
      forall i | 0 <= i < |ys|
        ensures ys[i] in all
      {
        assert ys[i] in multiset(ys);
      }
      InsertAscending(ys, xs[|xs| - 1], less, all);
    }
  }

  lemma SortAscending<T(!new)>(xs: seq<T>, less: (T, T) -> bool)
    requires StrictWeakOrder(less)
    ensures Ascending(StableSort(xs, less), less)
  {
    SortAscendingOn(xs, less, xs);
  }

  lemma FirstIsSame<T>(xs: seq<T>, ys: seq<T>, less: (T, T) -> bool)
    requires multiset(xs) == multiset(ys) && xs != [] && ys != []
    requires Ascending(xs, less) && Ascending(ys, less) && Separates(xs, less)
    ensures xs[0] == ys[0]
  {
    assert xs[0] in multiset(ys) && ys[0] in multiset(xs);
    var i :| 0 <= i < |ys| && ys[i] == xs[0];
    var j :| 0 <= j < |xs| && xs[j] == ys[0];
  }

  // Two ascending lists of the same elements are equal when the comparator
  // separates them.
  lemma {:induction false} AscendingUnique<T>(xs: seq<T>, ys: seq<T>, less: (T, T) -> bool)
    requires multiset(xs) == multiset(ys)
    requires Ascending(xs, less) && Ascending(ys, less) && Separates(xs, less)
    ensures xs == ys
  {
    assert |multiset(ys)| == |ys|;
    if xs != [] {
      FirstIsSame(xs, ys, less);
      SameTails(xs, ys);
      AscendingUnique(xs[1..], ys[1..], less);
      assert xs == [xs[0]] + xs[1..];
    }
  }

  lemma SameTails<T>(xs: seq<T>, ys: seq<T>)
    requires multiset(xs) == multiset(ys) && xs != [] && ys != [] && xs[0] == ys[0]
    ensures multiset(xs[1..]) == multiset(ys[1..])
  {
    assert xs == [xs[0]] + xs[1..] && ys == [ys[0]] + ys[1..];
    assert multiset(xs[1..]) == multiset(xs) - multiset{xs[0]};
  }

  // ---- Sorting by a text field ------------------------------------------------------

  function ByKey<T>(key: T -> string): (T, T) -> bool {
    (x: T, y: T) => Less(key(x), key(y))
  }

  ghost predicate DistinctKeys<T>(xs: seq<T>, key: T -> string) {
    forall i, j | 0 <= i < j < |xs| :: key(xs[i]) != key(xs[j])
  }

  lemma LessIsStrictWeak()
    ensures StrictWeakOrder(Less)
  {
    forall x, y
      ensures Less(x, y) ==> !Less(y, x)
    {
      LessTotal(x, y);
    }
    forall x, y, z | Less(x, z)
      ensures Less(x, y) || Less(y, z)
    {
      LessTotal(x, y);
      LessTotal(y, z);
      if Less(y, x) {
        LessTransitive(y, x, z);
      }
    }
  }

  lemma ByKeyIsStrictWeak<T(!new)>(key: T -> string)
    ensures StrictWeakOrder(ByKey(key))
  {
    LessIsStrictWeak();
  }

  lemma DistinctKeysSeparate<T>(xs: seq<T>, ys: seq<T>, key: T -> string)
    requires DistinctKeys(xs, key) && multiset(ys) == multiset(xs)
    ensures Separates(ys, ByKey(key))
  {
    forall x, y | x in ys && y in ys && !Less(key(x), key(y)) && !Less(key(y), key(x))
      ensures x == y
    {
      LessTotal(key(x), key(y));
      assert x in multiset(ys) && y in multiset(ys);
      assert x in xs && y in xs;
    }
  }

  // The canonical form: with distinct keys the sorted list does not depend on
  // the order of the input.
  lemma SortCanonical<T(!new)>(xs: seq<T>, ys: seq<T>, key: T -> string)
    requires multiset(xs) == multiset(ys) && DistinctKeys(xs, key)
    ensures StableSort(xs, ByKey(key)) == StableSort(ys, ByKey(key))
  {
    var s, t := StableSort(xs, ByKey(key)), StableSort(ys, ByKey(key));
    SortPermutes(xs, ByKey(key));
    SortPermutes(ys, ByKey(key));
    ByKeyIsStrictWeak(key);
    SortAscending(xs, ByKey(key));
    SortAscending(ys, ByKey(key));
    DistinctKeysSeparate(xs, s, key);
    AscendingUnique(s, t, ByKey(key));
  }
}
