/** src/utils/list.ts */
module ListUtil {
  import Seqs

  /** `removeList(original, remove)`: the elements of `original` that do not
      occur in `remove`, in their original order and with their duplicates. */
  function RemoveList<T(==, !new)>(original: seq<T>, remove: seq<T>): (r: seq<T>)
    ensures |r| <= |original|
    decreases |original|
  {
    if original == [] then []
    else
      var rest := RemoveList(original[1..], remove);
      if original[0] in remove then rest else [original[0]] + rest
  }

  /** An element is kept exactly when it is in `original` and not in `remove`,
      and a kept element keeps all its duplicates. */
  lemma {:induction false} RemoveListKeeps<T(!new)>(original: seq<T>, remove: seq<T>)
    ensures forall x :: x in RemoveList(original, remove) <==> x in original && x !in remove
    ensures forall x :: x !in remove ==> multiset(RemoveList(original, remove))[x] == multiset(original)[x]
    decreases |original|
  {
    if original != [] {
      RemoveListKeeps(original[1..], remove);
      assert original == [original[0]] + original[1..];
    }
  }

  /** One step of the filter: the head is kept exactly when it is not removed. */
  lemma RemoveListCons<T(!new)>(x: T, rest: seq<T>, remove: seq<T>)
    ensures RemoveList([x] + rest, remove) == (if x in remove then [] else [x]) + RemoveList(rest, remove)
  {
    assert ([x] + rest)[0] == x && ([x] + rest)[1..] == rest;
  }

  /** Removing distributes over concatenation, so the kept elements keep their order. */
  lemma {:induction false} RemoveListAppend<T(!new)>(a: seq<T>, b: seq<T>, remove: seq<T>)
    ensures RemoveList(a + b, remove) == RemoveList(a, remove) + RemoveList(b, remove)
    decreases |a|
  {
    if a != [] {
      var x, t := a[0], a[1..];
      assert a == [x] + t;
      assert a + b == [x] + (t + b);
      RemoveListCons(x, t + b, remove);
      RemoveListCons(x, t, remove);
      RemoveListAppend(t, b, remove);
      Seqs.AppendAssoc(if x in remove then [] else [x], RemoveList(t, remove), RemoveList(b, remove));
    } else {
      assert a + b == b;
    }
  }

  /** An empty `remove` list returns `original` unchanged. */
  lemma {:induction false} RemoveNothing<T(!new)>(original: seq<T>)
    ensures RemoveList(original, []) == original
    decreases |original|
  {
    if original != [] {
      RemoveNothing(original[1..]);
      assert original == [original[0]] + original[1..];
    }
  }

  /** When every element of `original` is in `remove`, nothing is left. */
  lemma {:induction false} RemoveEverything<T(!new)>(original: seq<T>, remove: seq<T>)
    requires forall x :: x in original ==> x in remove
    ensures RemoveList(original, remove) == []
    decreases |original|
  {
    if original != [] {
      assert forall x :: x in original[1..] ==> x in original;
      RemoveEverything(original[1..], remove);
    }
  }
}
