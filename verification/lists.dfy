/** Sequences used as the source's lists: distinct entries, and removal by value. */
module Lists {

  ghost predicate Distinct<T>(list: seq<T>) {
    forall i, j | 0 <= i < j < |list| :: list[i] != list[j]
  }

  /** The list after remove(x): the first x is gone. */
  function Without<T(==)>(list: seq<T>, x: T): (rest: seq<T>)
    ensures x !in list ==> rest == list
    ensures x in list ==> |rest| == |list| - 1
    ensures forall y :: y in rest ==> y in list
    ensures forall y :: y in list && y != x ==> y in rest
    ensures Distinct(list) ==> Distinct(rest) && x !in rest
  {
    if list == [] then []
    else if list[0] == x then list[1..]
    else
      var rest := Without(list[1..], x);
      assert forall y :: y in list ==> y == list[0] || y in list[1..];
      assert Distinct(list) ==> Distinct(list[1..]) && list[0] !in list[1..];
      assert list[0] !in list[1..] ==> list[0] !in rest;
      [list[0]] + rest
  }

  lemma DistinctGrows<T>(list: seq<T>, x: T)
    requires Distinct(list) && x !in list
    ensures Distinct(list + [x])
  {
  }

  lemma DistinctTail<T>(list: seq<T>)
    requires list != [] && Distinct(list)
    ensures Distinct(list[1..]) && list[0] !in list[1..]
    ensures forall x :: x in list <==> x == list[0] || x in list[1..]
  {
    assert list == [list[0]] + list[1..];
  }
}
