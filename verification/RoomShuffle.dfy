/** The shuffle of the round service: a permutation for any drawn places, and every permutation for some. */
module RoomShuffle {

  function Swapped<T>(items: seq<T>, i: nat, j: nat): (swapped: seq<T>)
    requires i < |items| && j < |items|
    ensures |swapped| == |items|
  {
    items[i := items[j]][j := items[i]]
  }

  /** For every place, the place drawn for it is not behind it. */
  ghost predicate Draws(pick: nat -> nat) {
    forall k: nat :: pick(k) <= k
  }

  /** The items after the swaps of the places `i` to 1, each with the place drawn for it. */
  ghost function ShuffledFrom<T>(items: seq<T>, i: nat, pick: nat -> nat): (shuffled: seq<T>)
    requires i < |items| && Draws(pick)
    ensures |shuffled| == |items|
    decreases i
  {
    if i == 0 then items else ShuffledFrom(Swapped(items, i, pick(i)), i - 1, pick)
  }

  lemma {:induction false} ShuffleKeepsItems<T>(items: seq<T>, i: nat, pick: nat -> nat)
    requires i < |items| && Draws(pick)
    ensures multiset(ShuffledFrom(items, i, pick)) == multiset(items)
    decreases i
  {
    if i > 0 {
      var swapped := Swapped(items, i, pick(i));
      ShuffleKeepsItems(swapped, i - 1, pick);
      assert multiset(swapped) == multiset(items);
    }
  }

  method SwapPlaces<T>(a: array<T>, i: nat, j: nat)
    requires i < a.Length && j < a.Length
    modifies a
    ensures a[..] == Swapped(old(a[..]), i, j)
  {
    a[i], a[j] := a[j], a[i];
  }

  /** A copy is permuted in place from its end; `pick(i)` is the place drawn for the place `i`. */
  method Shuffle<T>(items: seq<T>, pick: nat -> nat) returns (shuffled: seq<T>)
    requires Draws(pick)
    ensures multiset(shuffled) == multiset(items)
    ensures items != [] ==> shuffled == ShuffledFrom(items, |items| - 1, pick)
  {
    var result := new T[|items|](i requires 0 <= i < |items| => items[i]);
    assert result[..] == items;
    ghost var all := if items == [] then [] else ShuffledFrom(items, |items| - 1, pick);
    var i := result.Length - 1;
    while i > 0
      invariant i < result.Length && fresh(result) && (items != [] ==> 0 <= i)
      invariant items != [] ==> ShuffledFrom(result[..], i, pick) == all
      decreases i
    {
      var j := pick(i);
      SwapPlaces(result, i, j);
      i := i - 1;
    }
    if items != [] {
      ShuffleKeepsItems(items, |items| - 1, pick);
    }
    return result[..];
  }

  lemma {:induction false} SamePicks<T>(items: seq<T>, i: nat, a: nat -> nat, b: nat -> nat)
    requires i < |items| && Draws(a) && Draws(b)
    requires forall k: nat :: k <= i ==> a(k) == b(k)
    ensures ShuffledFrom(items, i, a) == ShuffledFrom(items, i, b)
    decreases i
  {
    if i > 0 {
      SamePicks(Swapped(items, i, a(i)), i - 1, a, b);
    }
  }

  /** A swap with the place `i` takes the item at `j` out of the first places. */
  lemma SwapTakesOut<T>(items: seq<T>, i: nat, j: nat)
    requires j <= i < |items|
    ensures multiset(Swapped(items, i, j)[..i]) + multiset{items[j]} == multiset(items[..i + 1])
  {
    var front := items[..i + 1];
    assert Swapped(front, i, j) == Swapped(items, i, j)[..i] + [items[j]];
    assert multiset(Swapped(front, i, j)) == multiset(front);
  }

  /** With the right item swapped to the place `i`, what is before it still has to be brought in order. */
  lemma SwapPlacesLast<T>(items: seq<T>, target: seq<T>, i: nat, j: nat)
    requires 0 < i < |items| == |target| && j <= i && items[j] == target[i]
    requires items[i + 1..] == target[i + 1..] && multiset(items[..i + 1]) == multiset(target[..i + 1])
    ensures Swapped(items, i, j)[i..] == target[i..]
    ensures multiset(Swapped(items, i, j)[..i]) == multiset(target[..i])
  {
    SwapTakesOut(items, i, j);
    assert target[..i + 1] == target[..i] + [target[i]];
    var last := multiset{target[i]};
    assert multiset(Swapped(items, i, j)[..i]) == multiset(Swapped(items, i, j)[..i]) + last - last;
    assert multiset(target[..i]) == multiset(target[..i]) + last - last;
    forall k | i <= k < |items| ensures Swapped(items, i, j)[k] == target[k] {
      assert k > i ==> items[i + 1..][k - i - 1] == target[i + 1..][k - i - 1];
    }
  }

  lemma LastIsThere<T>(items: seq<T>, target: seq<T>, i: nat) returns (j: nat)
    requires i < |items| == |target| && multiset(items[..i + 1]) == multiset(target[..i + 1])
    ensures j <= i && items[j] == target[i]
  {
    assert target[..i + 1][i] in multiset(target[..i + 1]);
    assert target[i] in items[..i + 1];
    j :| j <= i && items[..i + 1][j] == target[i];
  }

  lemma SameRestIsSame<T>(items: seq<T>, target: seq<T>)
    requires 0 < |items| == |target| && items[0] == target[0] && items[1..] == target[1..]
    ensures items == target
  {
    assert items == [items[0]] + items[1..] && target == [target[0]] + target[1..];
  }

  /** Every order of the items can be drawn: the shuffle leaves no permutation out. */
  lemma {:induction false} EveryOrderCanBeDrawn<T>(items: seq<T>, target: seq<T>, i: nat) returns (pick: nat -> nat)
    requires i < |items| == |target| && items[i + 1..] == target[i + 1..]
    requires multiset(items[..i + 1]) == multiset(target[..i + 1])
    ensures Draws(pick) && ShuffledFrom(items, i, pick) == target
    decreases i
  {
    var j := LastIsThere(items, target, i);
    if i == 0 {
      pick := _ => 0;
      SameRestIsSame(items, target);
    } else {
      SwapPlacesLast(items, target, i, j);
      var rest := EveryOrderCanBeDrawn(Swapped(items, i, j), target, i - 1);
      pick := (k: nat) => if k == i then j else rest(k);
      SamePicks(Swapped(items, i, j), i - 1, pick, rest);
    }
  }

  /** Hence every permutation of the items is the result of some draw. */
  lemma EveryPermutationCanBeDrawn<T>(items: seq<T>, target: seq<T>) returns (pick: nat -> nat)
    requires items != [] && multiset(items) == multiset(target)
    ensures Draws(pick) && ShuffledFrom(items, |items| - 1, pick) == target
  {
    assert |items| == |multiset(items)| == |multiset(target)| == |target|;
    assert items[..|items|] == items && target[..|items|] == target;
    pick := EveryOrderCanBeDrawn(items, target, |items| - 1);
  }
}
