/** Facts about sizes of finite sets. */
module Sets {

  lemma {:induction false} SubsetSize<T>(small: set<T>, large: set<T>)
    requires small <= large
    ensures |small| <= |large|
  {
    if small != {} {
      var x :| x in small;
      SubsetSize(small - {x}, large - {x});
    }
  }

  predicate NoRepeat<T(==)>(items: seq<T>) {
    forall i, j | 0 <= i < j < |items| :: items[i] != items[j]
  }

  function SetOf<T(==)>(items: seq<T>): set<T> {
    set x | x in items
  }

  lemma {:induction false} NoRepeatSize<T>(items: seq<T>)
    requires NoRepeat(items)
    ensures |SetOf(items)| == |items|
  {
    if items != [] {
      var front, last := items[..|items| - 1], items[|items| - 1];
      NoRepeatSize(front);
      assert SetOf(items) == SetOf(front) + {last};
      assert last !in SetOf(front);
    }
  }
}
