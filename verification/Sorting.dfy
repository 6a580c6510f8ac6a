/** Sequences sorted by a strict order, the first few of them, and the order of strings. */
module Sorting {
  import opened Common

  type Order<!T> = (T, T) -> bool

  ghost predicate StrictOrder<T(!new)>(lt: Order<T>) {
    && (forall a :: !lt(a, a))
    && (forall a, b, c :: lt(a, b) && lt(b, c) ==> lt(a, c))
  }

  /** Any two elements at different positions are ordered one way or the other. */
  predicate Separates<T>(lt: Order<T>, xs: seq<T>) {
    forall i, j :: 0 <= i < j < |xs| ==> lt(xs[i], xs[j]) || lt(xs[j], xs[i])
  }

  predicate Ascends<T>(lt: Order<T>, xs: seq<T>) {
    forall i, j :: 0 <= i < j < |xs| ==> lt(xs[i], xs[j])
  }

  /** Insertion in front of the first element that `x` precedes. */
  function Place<T>(lt: Order<T>, x: T, xs: seq<T>): (r: seq<T>)
    ensures |r| == |xs| + 1
  {
    if xs == [] || lt(x, xs[0]) then [x] + xs else [xs[0]] + Place(lt, x, xs[1..])
  }

  function Sort<T>(lt: Order<T>, xs: seq<T>): (r: seq<T>)
    ensures |r| == |xs|
  {
    if xs == [] then [] else Place(lt, Last(xs), Sort(lt, Front(xs)))
  }

  /** The first `k`, or all when there are no more. */
  function Take<T>(k: nat, xs: seq<T>): (r: seq<T>)
    ensures |r| == if |xs| < k then |xs| else k
  {
    if |xs| <= k then xs else xs[..k]
  }

  lemma {:induction false} PlaceElements<T>(lt: Order<T>, x: T, xs: seq<T>)
    ensures multiset(Place(lt, x, xs)) == multiset(xs) + multiset{x}
  {
    if xs != [] && !lt(x, xs[0]) {
      PlaceElements(lt, x, xs[1..]);
      assert xs == [xs[0]] + xs[1..];
    }
  }

  lemma {:induction false} SortElements<T>(lt: Order<T>, xs: seq<T>)
    ensures multiset(Sort(lt, xs)) == multiset(xs)
  {
    if xs != [] {
      SortElements(lt, Front(xs));
      PlaceElements(lt, Last(xs), Sort(lt, Front(xs)));
      assert xs == Front(xs) + [Last(xs)];
    }
  }

  lemma {:induction false} PlaceAscends<T(!new)>(lt: Order<T>, x: T, xs: seq<T>)
    requires StrictOrder(lt) && Ascends(lt, xs) && forall y :: y in xs ==> lt(x, y) || lt(y, x)
    ensures Ascends(lt, Place(lt, x, xs))
  {
    if xs != [] {
      if !lt(x, xs[0]) {
        var rest := Place(lt, x, xs[1..]);
        PlaceAscends(lt, x, xs[1..]);
        PlaceElements(lt, x, xs[1..]);
        forall j | 0 <= j < |rest|
          ensures lt(xs[0], rest[j])
        {
          assert rest[j] in multiset(rest);
          assert rest[j] == x || rest[j] in xs[1..];
        }
      } else {
        assert forall j :: 0 < j < |xs| ==> lt(xs[0], xs[j]);
      }
    }
  }

  lemma {:induction false} SortAscends<T(!new)>(lt: Order<T>, xs: seq<T>)
    requires StrictOrder(lt) && Separates(lt, xs)
    ensures Ascends(lt, Sort(lt, xs))
  {
    if xs != [] {
      var front, x := Front(xs), Last(xs);
      SortAscends(lt, front);
      SortElements(lt, front);
      forall y | y in Sort(lt, front)
        ensures lt(x, y) || lt(y, x)
      {
        assert y in multiset(Sort(lt, front));
        var i :| 0 <= i < |front| && front[i] == y;
        assert lt(xs[i], xs[|xs| - 1]) || lt(xs[|xs| - 1], xs[i]);
      }
      PlaceAscends(lt, x, Sort(lt, front));
    }
  }

  // ---- elements that the order does not tell apart ----

  /** Sorted, with elements of the same rank in any order. */
  predicate NeverDescends<T>(lt: Order<T>, xs: seq<T>) {
    forall i, j :: 0 <= i < j < |xs| ==> !lt(xs[j], xs[i])
  }

  /** Asymmetric, and whatever lies between two ranked elements is ranked against one of them. */
  ghost predicate WeakOrder<T(!new)>(lt: Order<T>) {
    && (forall a, b :: lt(a, b) ==> !lt(b, a))
    && (forall a, b, c :: lt(a, c) && !lt(b, c) ==> lt(a, b))
  }

  lemma {:induction false} PlaceNeverDescends<T(!new)>(lt: Order<T>, x: T, xs: seq<T>)
    requires WeakOrder(lt) && NeverDescends(lt, xs)
    ensures NeverDescends(lt, Place(lt, x, xs))
  {
    if xs != [] {
      if lt(x, xs[0]) {
        assert forall j :: 0 < j < |xs| ==> !lt(xs[j], xs[0]);
      } else {
        var rest := Place(lt, x, xs[1..]);
        PlaceNeverDescends(lt, x, xs[1..]);
        PlaceElements(lt, x, xs[1..]);
        forall j | 0 <= j < |rest|
          ensures !lt(rest[j], xs[0])
        {
          assert rest[j] in multiset(rest);
          assert rest[j] == x || rest[j] in xs[1..];
        }
      }
    }
  }

  lemma {:induction false} SortNeverDescends<T(!new)>(lt: Order<T>, xs: seq<T>)
    requires WeakOrder(lt)
    ensures NeverDescends(lt, Sort(lt, xs))
  {
    if xs != [] {
      SortNeverDescends(lt, Front(xs));
      PlaceNeverDescends(lt, Last(xs), Sort(lt, Front(xs)));
    }
  }

  // ---- the first few, ties or not ----

  /** How many elements `x` does not precede. */
  function NotBehind<T>(lt: Order<T>, x: T, xs: seq<T>): (n: nat)
    ensures n <= |xs|
  {
    if xs == [] then 0 else NotBehind(lt, x, Front(xs)) + if lt(x, Last(xs)) then 0 else 1
  }

  lemma {:induction false} NotBehindParts<T>(lt: Order<T>, x: T, xs: seq<T>, ys: seq<T>)
    ensures NotBehind(lt, x, xs + ys) == NotBehind(lt, x, xs) + NotBehind(lt, x, ys)
  {
    if ys == [] {
      assert xs + ys == xs;
    } else {
      assert Front(xs + ys) == xs + Front(ys);
      NotBehindParts(lt, x, xs, Front(ys));
    }
  }

  lemma NotBehindSnoc<T>(lt: Order<T>, x: T, xs: seq<T>, y: T)
    ensures NotBehind(lt, x, xs + [y]) == NotBehind(lt, x, xs) + if lt(x, y) then 0 else 1
  {
    assert Front(xs + [y]) == xs;
  }

  lemma NotBehindMiddle<T>(lt: Order<T>, x: T, head: seq<T>, y: T, tail: seq<T>)
    ensures NotBehind(lt, x, head + [y] + tail) == NotBehind(lt, x, head + tail) + if lt(x, y) then 0 else 1
  {
    NotBehindSnoc(lt, x, head, y);
    NotBehindParts(lt, x, head + [y], tail);
    NotBehindParts(lt, x, head, tail);
  }

  /** The place of the last element of a sequence in a permutation of it. */
  lemma TakeOut<T>(xs: seq<T>, ys: seq<T>) returns (k: nat)
    requires multiset(xs) == multiset(ys) && xs != []
    ensures k < |ys| && ys == ys[..k] + [Last(xs)] + ys[k + 1..]
    ensures multiset(Front(xs)) == multiset(ys[..k] + ys[k + 1..])
  {
    var n, y := |xs| - 1, Last(xs);
    assert y in multiset(ys);
    k :| 0 <= k < |ys| && ys[k] == y;
    RemoveAt(ys, k);
    RemoveAt(xs, n);
    assert xs[..n] + xs[n + 1..] == Front(xs);
    assert multiset(Front(xs)) == multiset(xs) - multiset{y} == multiset(ys[..k] + ys[k + 1..]);
  }

  /** The order in which elements stand does not matter. */
  lemma {:induction false} NotBehindPermuted<T>(lt: Order<T>, x: T, xs: seq<T>, ys: seq<T>)
    requires multiset(xs) == multiset(ys)
    ensures NotBehind(lt, x, xs) == NotBehind(lt, x, ys)
    decreases |xs|
  {
    if xs == [] {
      assert ys == [] by { assert |multiset(ys)| == |ys|; }
    } else {
      var k := TakeOut(xs, ys);
      NotBehindPermuted(lt, x, Front(xs), ys[..k] + ys[k + 1..]);
      NotBehindMiddle(lt, x, ys[..k], Last(xs), ys[k + 1..]);
    }
  }

  lemma {:induction false} NoneNotBehind<T>(lt: Order<T>, x: T, xs: seq<T>)
    requires forall i :: 0 <= i < |xs| ==> lt(x, xs[i])
    ensures NotBehind(lt, x, xs) == 0
  {
    if xs != [] { NoneNotBehind(lt, x, Front(xs)); }
  }

  lemma {:induction false} AllNotBehind<T>(lt: Order<T>, x: T, xs: seq<T>)
    requires forall i :: 0 <= i < |xs| ==> !lt(x, xs[i])
    ensures NotBehind(lt, x, xs) == |xs|
  {
    if xs != [] { AllNotBehind(lt, x, Front(xs)); }
  }

  /** With `k` elements that `x` does not precede, it precedes none of the first `k` in order. */
  lemma NotAmongFirst<T(!new)>(lt: Order<T>, x: T, xs: seq<T>, k: nat)
    requires WeakOrder(lt) && NeverDescends(lt, xs) && k <= NotBehind(lt, x, xs)
    ensures forall i :: 0 <= i < k ==> !lt(x, xs[i])
  {
    forall i | 0 <= i < k
      ensures !lt(x, xs[i])
    {
      if lt(x, xs[i]) {
        forall j | 0 <= j < |xs[i..]|
          ensures lt(x, xs[i..][j])
        {
        }
        NoneNotBehind(lt, x, xs[i..]);
        assert xs == xs[..i] + xs[i..];
        NotBehindParts(lt, x, xs[..i], xs[i..]);
      }
    }
  }

  /** `held` is enough of `seen` to tell its first `k`: every element let go has `k` others that it does not precede. */
  ghost predicate Suffices<T(!new)>(lt: Order<T>, k: nat, held: seq<T>, seen: seq<T>) {
    && multiset(held) <= multiset(seen)
    && (|held| >= k || |held| == |seen|)
    && forall x :: x in multiset(seen) - multiset(held) ==> NotBehind(lt, x, held) >= k
  }

  lemma SufficesWithOneMore<T(!new)>(lt: Order<T>, k: nat, held: seq<T>, seen: seq<T>, y: T)
    requires Suffices(lt, k, held, seen)
    ensures Suffices(lt, k, held + [y], seen + [y])
  {
    assert multiset(seen + [y]) - multiset(held + [y]) == multiset(seen) - multiset(held);
    assert Front(held + [y]) == held;
  }

  lemma SufficesPermuted<T(!new)>(lt: Order<T>, k: nat, held: seq<T>, seen: seq<T>, asc: seq<T>)
    requires Suffices(lt, k, held, seen) && multiset(asc) == multiset(held)
    ensures Suffices(lt, k, asc, seen)
  {
    assert |asc| == |multiset(asc)| == |multiset(held)| == |held|;
    forall x | x in multiset(seen) - multiset(asc)
      ensures NotBehind(lt, x, asc) >= k
    {
      NotBehindPermuted(lt, x, held, asc);
    }
  }

  /** What is let go when an ordered list is cut: something let go before, or something behind the cut. */
  lemma LetGo<T>(seen: seq<T>, asc: seq<T>, k: nat, x: T)
    requires k <= |asc| && x in multiset(seen) - multiset(asc[..k])
    ensures x in multiset(seen) - multiset(asc) || x in asc[k..]
  {
    assert asc == asc[..k] + asc[k..];
    if x !in asc[k..] {
      assert multiset(asc)[x] == multiset(asc[..k])[x] + multiset(asc[k..])[x];
      assert x !in multiset(asc[k..]);
    }
  }

  /** Cutting an ordered list after `k` elements or more keeps enough. */
  lemma FirstSuffice<T(!new)>(lt: Order<T>, k: nat, asc: seq<T>, seen: seq<T>)
    requires WeakOrder(lt) && NeverDescends(lt, asc) && Suffices(lt, k, asc, seen) && k <= |asc|
    ensures Suffices(lt, k, asc[..k], seen)
    ensures forall x, i :: x in multiset(seen) - multiset(asc[..k]) && 0 <= i < k ==> !lt(x, asc[i])
  {
    assert asc == asc[..k] + asc[k..];
    forall x | x in multiset(seen) - multiset(asc[..k])
      ensures NotBehind(lt, x, asc[..k]) >= k && forall i :: 0 <= i < k ==> !lt(x, asc[i])
    {
      LetGo(seen, asc, k, x);
      if x in multiset(seen) - multiset(asc) {
        NotAmongFirst(lt, x, asc, k);
      } else {
        var j :| 0 <= j < |asc[k..]| && asc[k..][j] == x;
        assert asc[k + j] == x;
      }
      AllNotBehind(lt, x, asc[..k]);
    }
  }

  /** The external sorter: the records added, in the order of their keys. */
  method SpillSort<T(!new)>(lt: Order<T>, xs: seq<T>) returns (out: seq<T>)
    requires WeakOrder(lt)
    ensures multiset(out) == multiset(xs) && NeverDescends(lt, out)
  {
    SortElements(lt, xs);
    SortNeverDescends(lt, xs);
    out := Sort(lt, xs);
  }

  lemma {:induction false} PlaceLast<T(!new)>(lt: Order<T>, x: T, xs: seq<T>)
    requires StrictOrder(lt) && Ascends(lt, xs + [x])
    ensures Place(lt, x, xs) == xs + [x]
  {
    if xs != [] {
      assert (xs + [x])[0] == xs[0] && (xs + [x])[|xs|] == x;
      assert (xs + [x])[1..] == xs[1..] + [x];
      forall i, j | 0 <= i < j < |xs[1..] + [x]|
        ensures lt((xs[1..] + [x])[i], (xs[1..] + [x])[j])
      {
        assert lt((xs + [x])[i + 1], (xs + [x])[j + 1]);
      }
      PlaceLast(lt, x, xs[1..]);
    }
  }

  lemma {:induction false} SortOfAscending<T(!new)>(lt: Order<T>, xs: seq<T>)
    requires StrictOrder(lt) && Ascends(lt, xs)
    ensures Sort(lt, xs) == xs
  {
    if xs != [] {
      SortOfAscending(lt, Front(xs));
      assert xs == Front(xs) + [Last(xs)];
      PlaceLast(lt, Last(xs), Front(xs));
    }
  }

  /** A strictly ascending sequence is determined by its elements. */
  lemma {:induction false} AscendingUnique<T(!new)>(lt: Order<T>, xs: seq<T>, ys: seq<T>)
    requires StrictOrder(lt) && Ascends(lt, xs) && Ascends(lt, ys) && multiset(xs) == multiset(ys)
    ensures xs == ys
  {
    assert |multiset(xs)| == |xs| && |multiset(ys)| == |ys|;
    if xs != [] {
      SameLeast(lt, xs, ys);
      assert xs == [xs[0]] + xs[1..] && ys == [ys[0]] + ys[1..];
      assert multiset(xs[1..]) == multiset(xs) - multiset{xs[0]};
      assert multiset(ys[1..]) == multiset(ys) - multiset{ys[0]};
      AscendingUnique(lt, xs[1..], ys[1..]);
    }
  }

  lemma SameLeast<T(!new)>(lt: Order<T>, xs: seq<T>, ys: seq<T>)
    requires StrictOrder(lt) && Ascends(lt, xs) && Ascends(lt, ys) && multiset(xs) == multiset(ys)
    requires xs != [] && ys != []
    ensures xs[0] == ys[0]
  {
    assert xs[0] in multiset(ys) && ys[0] in multiset(xs);
    var i :| 0 <= i < |ys| && ys[i] == xs[0];
    var j :| 0 <= j < |xs| && xs[j] == ys[0];
  }

  /** Any sorted permutation is the sort. */
  lemma SortUnique<T(!new)>(lt: Order<T>, xs: seq<T>, ys: seq<T>)
    requires StrictOrder(lt) && Separates(lt, xs) && Ascends(lt, ys) && multiset(xs) == multiset(ys)
    ensures ys == Sort(lt, xs)
  {
    SortAscends(lt, xs);
    SortElements(lt, xs);
    AscendingUnique(lt, ys, Sort(lt, xs));
  }

  lemma {:induction false} CountOnce<T(!new)>(lt: Order<T>, xs: seq<T>, x: T)
    requires StrictOrder(lt) && Separates(lt, xs)
    ensures multiset(xs)[x] <= 1
  {
    if xs != [] {
      assert xs == [xs[0]] + xs[1..];
      CountOnce(lt, xs[1..], x);
      if x in xs[1..] {
        var j :| 0 <= j < |xs[1..]| && xs[1..][j] == x;
        assert lt(xs[0], xs[j + 1]) || lt(xs[j + 1], xs[0]);
      }
    }
  }

  lemma SeparatesSome<T(!new)>(lt: Order<T>, xs: seq<T>, ys: seq<T>)
    requires StrictOrder(lt) && Separates(lt, xs) && multiset(ys) <= multiset(xs)
    ensures Separates(lt, ys)
  {
    forall i, j | 0 <= i < j < |ys|
      ensures lt(ys[i], ys[j]) || lt(ys[j], ys[i])
    {
      var a, b := ys[i], ys[j];
      RemoveAt(ys, i);
      assert (ys[..i] + ys[i + 1..])[j - 1] == b;
      assert b in multiset(ys[..i] + ys[i + 1..]);
      CountOnce(lt, xs, a);
      assert a != b;
      assert a in multiset(xs) && b in multiset(xs);
      var p :| 0 <= p < |xs| && xs[p] == a;
      var q :| 0 <= q < |xs| && xs[q] == b;
    }
  }

  /** Where insertion happens. */
  lemma {:induction false} PlaceAt<T>(lt: Order<T>, x: T, xs: seq<T>, i: nat)
    requires i <= |xs| && (forall j :: 0 <= j < i ==> !lt(x, xs[j])) && (i < |xs| ==> lt(x, xs[i]))
    ensures Place(lt, x, xs) == xs[..i] + [x] + xs[i..]
  {
    if i > 0 {
      PlaceAt(lt, x, xs[1..], i - 1);
      assert xs[..i] == [xs[0]] + xs[1..][..i - 1];
    }
  }

  /** Where an element lands among the first `k` depends on the first `k` only. */
  lemma {:induction false} TakePlace<T>(lt: Order<T>, x: T, xs: seq<T>, k: nat)
    ensures Take(k, Place(lt, x, xs)) == Take(k, Place(lt, x, Take(k, xs)))
  {
    if xs != [] && !lt(x, xs[0]) && 0 < k < |xs| {
      TakePlace(lt, x, xs[1..], k - 1);
      assert xs[..k][1..] == xs[1..][..k - 1];
      var a, b := Place(lt, x, xs[1..]), Place(lt, x, xs[1..][..k - 1]);
      assert Place(lt, x, xs) == [xs[0]] + a && Place(lt, x, xs[..k]) == [xs[0]] + b;
      assert ([xs[0]] + a)[..k] == [xs[0]] + a[..k - 1];
      assert ([xs[0]] + b)[..k] == [xs[0]] + b[..k - 1];
    } else if 0 < k < |xs| {
      assert ([x] + xs)[..k] == ([x] + xs[..k])[..k];
    }
  }

  /** Two collections with the same first `k` keep the same first `k` when the same element joins both. */
  lemma SameFirst<T>(lt: Order<T>, xs: seq<T>, ys: seq<T>, x: T, k: nat)
    requires Take(k, Sort(lt, xs)) == Take(k, Sort(lt, ys))
    ensures Take(k, Sort(lt, xs + [x])) == Take(k, Sort(lt, ys + [x]))
  {
    assert Front(xs + [x]) == xs && Front(ys + [x]) == ys;
    TakePlace(lt, x, Sort(lt, xs), k);
    TakePlace(lt, x, Sort(lt, ys), k);
  }

  // ---- the reverse direction ----

  function Flip<T>(lt: Order<T>): Order<T> {
    (a, b) => lt(b, a)
  }

  predicate Mirrors<T(==)>(xs: seq<T>, r: seq<T>) {
    |r| == |xs| && forall i :: 0 <= i < |xs| ==> r[i] == xs[|xs| - 1 - i]
  }

  function Reversed<T>(xs: seq<T>): (r: seq<T>)
    ensures Mirrors(xs, r)
  {
    if xs == [] then [] else [Last(xs)] + Reversed(Front(xs))
  }

  lemma {:induction false} ReversedElements<T>(xs: seq<T>)
    ensures multiset(Reversed(xs)) == multiset(xs)
  {
    if xs != [] {
      ReversedElements(Front(xs));
      assert xs == Front(xs) + [Last(xs)];
    }
  }

  lemma ReversedAscends<T>(lt: Order<T>, xs: seq<T>)
    requires Ascends(lt, xs)
    ensures Ascends(Flip(lt), Reversed(xs))
  {
    var r := Reversed(xs);
    forall i, j | 0 <= i < j < |r|
      ensures Flip(lt)(r[i], r[j])
    {
      assert lt(xs[|xs| - 1 - j], xs[|xs| - 1 - i]);
    }
  }

  lemma ReversedNeverDescends<T>(lt: Order<T>, xs: seq<T>)
    requires NeverDescends(lt, xs)
    ensures NeverDescends(Flip(lt), Reversed(xs))
  {
    var r := Reversed(xs);
    forall i, j | 0 <= i < j < |r|
      ensures !Flip(lt)(r[j], r[i])
    {
      assert !lt(xs[|xs| - 1 - i], xs[|xs| - 1 - j]);
    }
  }

  lemma MirrorsLast<T>(asc: seq<T>, r: seq<T>, kept: seq<T>, q: seq<T>)
    requires Mirrors(asc, r) && Mirrors(kept, q) && |kept| <= |asc| && kept == asc[|asc| - |kept|..]
    ensures q == r[..|kept|]
  {
    forall i | 0 <= i < |q|
      ensures q[i] == r[i]
    {
      assert q[i] == kept[|kept| - 1 - i] == asc[|asc| - 1 - i];
    }
  }

  lemma LastIsReversedFirst<T>(asc: seq<T>, k: nat)
    requires k <= |asc|
    ensures multiset(asc[|asc| - k..]) == multiset(Reversed(asc)[..k])
  {
    var kept := asc[|asc| - k..];
    MirrorsLast(asc, Reversed(asc), kept, Reversed(kept));
    ReversedElements(kept);
  }

  /** The last `k` of an ordered list keep enough for the other direction. */
  lemma LastSuffice<T(!new)>(lt: Order<T>, k: nat, asc: seq<T>, seen: seq<T>)
    requires WeakOrder(Flip(lt)) && NeverDescends(lt, asc) && k <= |asc| && Suffices(Flip(lt), k, asc, seen)
    ensures Suffices(Flip(lt), k, asc[|asc| - k..], seen)
  {
    var r := Reversed(asc);
    ReversedNeverDescends(lt, asc);
    ReversedElements(asc);
    SufficesPermuted(Flip(lt), k, asc, seen, r);
    FirstSuffice(Flip(lt), k, r, seen);
    LastIsReversedFirst(asc, k);
    SufficesPermuted(Flip(lt), k, r[..k], seen, asc[|asc| - k..]);
  }

  lemma FlipOrder<T(!new)>(lt: Order<T>)
    requires StrictOrder(lt)
    ensures StrictOrder(Flip(lt))
  {
  }

  /** Descending order is the mirror image of ascending order. */
  lemma SortFlipped<T(!new)>(lt: Order<T>, xs: seq<T>, asc: seq<T>)
    requires StrictOrder(lt) && Separates(lt, xs) && Ascends(lt, asc) && multiset(asc) == multiset(xs)
    ensures Sort(Flip(lt), xs) == Reversed(asc)
  {
    FlipOrder(lt);
    ReversedElements(asc);
    ReversedAscends(lt, asc);
    SortUnique(Flip(lt), xs, Reversed(asc));
  }

  lemma AscendingSeparates<T>(lt: Order<T>, xs: seq<T>)
    requires Ascends(lt, xs)
    ensures Separates(lt, xs)
  {
  }

  lemma TrimFirst<T(!new)>(lt: Order<T>, xs: seq<T>, asc: seq<T>, k: nat)
    requires StrictOrder(lt) && Separates(lt, xs) && Ascends(lt, asc) && multiset(asc) == multiset(xs) && k <= |asc|
    ensures Take(k, Sort(lt, asc[..k])) == Take(k, Sort(lt, xs))
  {
    SortUnique(lt, xs, asc);
    SortOfAscending(lt, asc[..k]);
  }

  /** The last `k` of an ascending list are the first `k` of the descending one. */
  lemma TrimLast<T(!new)>(lt: Order<T>, xs: seq<T>, asc: seq<T>, k: nat)
    requires StrictOrder(lt) && Separates(lt, xs) && Ascends(lt, asc) && multiset(asc) == multiset(xs) && k <= |asc|
    ensures Take(k, Sort(Flip(lt), asc[|asc| - k..])) == Take(k, Sort(Flip(lt), xs))
  {
    var kept := asc[|asc| - k..];
    SortFlipped(lt, xs, asc);
    AscendingSeparates(lt, kept);
    SortFlipped(lt, kept, kept);
    assert Reversed(kept) == Reversed(asc)[..k];
  }

  // ---- strings ----

  predicate StringLess(x: string, y: string) {
    if y == "" then false
    else if x == "" then true
    else x[0] < y[0] || (x[0] == y[0] && StringLess(x[1..], y[1..]))
  }

  /** Where `x` and `y` part: they agree up to `k`, and there `x` ends or has the smaller character. */
  predicate PartsBelow(x: string, y: string, k: nat) {
    k <= |x| && k < |y| && x[..k] == y[..k] && (k == |x| || x[k] < y[k])
  }

  lemma {:induction false} StringLessParts(x: string, y: string) returns (k: nat)
    requires StringLess(x, y)
    ensures PartsBelow(x, y, k)
  {
    k := 0;
    if x != "" && x[0] == y[0] {
      k := StringLessParts(x[1..], y[1..]);
      k := k + 1;
      assert x[..k] == [x[0]] + x[1..][..k - 1] && y[..k] == [y[0]] + y[1..][..k - 1];
    }
  }

  lemma {:induction false} PartsStringLess(x: string, y: string, k: nat)
    requires PartsBelow(x, y, k)
    ensures StringLess(x, y)
  {
    if k > 0 {
      assert x[..k][0] == x[0] && y[..k][0] == y[0];
      assert x[1..][..k - 1] == x[..k][1..] && y[1..][..k - 1] == y[..k][1..];
      PartsStringLess(x[1..], y[1..], k - 1);
    }
  }

  /** Strings are compared at the first place where they differ. */
  lemma StringLessIsLexicographic(x: string, y: string)
    ensures StringLess(x, y) <==> exists k :: PartsBelow(x, y, k)
  {
    if StringLess(x, y) { var k := StringLessParts(x, y); }
    if k :| PartsBelow(x, y, k) { PartsStringLess(x, y, k); }
  }

  lemma {:induction false} StringTotal(x: string, y: string)
    ensures x == y <==> !StringLess(x, y) && !StringLess(y, x)
  {
    if x != "" && y != "" {
      assert x == [x[0]] + x[1..] && y == [y[0]] + y[1..];
      StringTotal(x[1..], y[1..]);
    }
  }

  lemma {:induction false} StringTransitive(x: string, y: string, z: string)
    requires StringLess(x, y) && StringLess(y, z)
    ensures StringLess(x, z)
  {
    if x != "" && x[0] == y[0] && y[0] == z[0] { StringTransitive(x[1..], y[1..], z[1..]); }
  }
}
