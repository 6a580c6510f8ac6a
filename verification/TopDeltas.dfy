/** The bounded list of the largest file changes, kept by insertion into a fixed buffer. */
module TopDeltas {
  import opened Common
  import opened Sorting

  datatype Class = Added | Removed | Changed

  datatype FileDelta = FileDelta(path: string, aSize: int, bSize: int, delta: int, cls: Class)

  function Abs(x: int): nat {
    if x < 0 then -x else x
  }

  /** Larger changes first, then by path. */
  predicate Before(x: FileDelta, y: FileDelta) {
    if Abs(x.delta) != Abs(y.delta) then Abs(x.delta) > Abs(y.delta) else StringLess(x.path, y.path)
  }

  lemma BeforeIsOrder()
    ensures StrictOrder(Before)
  {
    forall a: FileDelta
      ensures !Before(a, a)
    {
      StringTotal(a.path, a.path);
    }
    forall a, b, c | Before(a, b) && Before(b, c)
      ensures Before(a, c)
    {
      if Abs(a.delta) == Abs(b.delta) == Abs(c.delta) { StringTransitive(a.path, b.path, c.path); }
    }
  }

  /** What precedes `y` precedes everything that does not precede `y`. */
  lemma BeforeThrough(x: FileDelta, y: FileDelta, z: FileDelta)
    requires Before(x, y) && !Before(z, y)
    ensures Before(x, z)
  {
    StringTotal(y.path, z.path);
    if StringLess(x.path, y.path) && StringLess(y.path, z.path) { StringTransitive(x.path, y.path, z.path); }
  }

  /** What the list promises, in sizes and paths: the `n` largest changes, largest first, paths ascending among equals. */
  ghost predicate Largest(n: nat, all: seq<FileDelta>, top: seq<FileDelta>) {
    && |top| == (if n < |all| then n else |all|)
    && multiset(top) <= multiset(all)
    && (forall i, j :: 0 <= i < j < |top| ==> Abs(top[i].delta) >= Abs(top[j].delta))
    && (forall i, j :: 0 <= i < j < |top| && Abs(top[i].delta) == Abs(top[j].delta) ==> !StringLess(top[j].path, top[i].path))
    && (forall x, i :: x in multiset(all) - multiset(top) && 0 <= i < |top| ==> Abs(top[i].delta) >= Abs(x.delta))
    && (forall x, i :: x in multiset(all) - multiset(top) && 0 <= i < |top| && Abs(top[i].delta) == Abs(x.delta) ==>
          !StringLess(x.path, top[i].path))
  }

  lemma BeforeIsWeak()
    ensures WeakOrder(Before)
  {
    BeforeIsOrder();
    forall x, y, z | Before(x, z) && !Before(y, z)
      ensures Before(x, y)
    {
      BeforeThrough(x, z, y);
    }
  }

  /** The first `n` in rank order are the `n` largest changes. */
  lemma FirstAreLargest(n: nat, all: seq<FileDelta>)
    ensures Largest(n, all, Take(n, Sort(Before, all)))
  {
    var asc := Sort(Before, all);
    BeforeIsWeak();
    SortElements(Before, all);
    SortNeverDescends(Before, all);
    if n <= |asc| {
      assert Suffices(Before, n, asc, all);
      FirstSuffice(Before, n, asc, all);
      assert Take(n, asc) == asc[..n];
    }
    RankedAreLargest(n, all, Take(n, asc));
  }

  lemma RankedAreLargest(n: nat, all: seq<FileDelta>, top: seq<FileDelta>)
    requires |top| == (if n < |all| then n else |all|) && multiset(top) <= multiset(all) && NeverDescends(Before, top)
    requires forall x, i :: x in multiset(all) - multiset(top) && 0 <= i < |top| ==> !Before(x, top[i])
    ensures Largest(n, all, top)
  {
    forall i, j | 0 <= i < j < |top|
      ensures Abs(top[i].delta) >= Abs(top[j].delta)
      ensures Abs(top[i].delta) == Abs(top[j].delta) ==> !StringLess(top[j].path, top[i].path)
    {
      assert !Before(top[j], top[i]);
    }
  }

  /** In order, ties allowed. */
  predicate Ranked(xs: seq<FileDelta>) {
    forall i, j :: 0 <= i < j < |xs| ==> !Before(xs[j], xs[i])
  }

  /** The position in front of which `d` belongs. */
  predicate Position(d: FileDelta, xs: seq<FileDelta>, i: nat) {
    && i <= |xs|
    && (forall j :: 0 <= j < i ==> !Before(d, xs[j]))
    && (forall j :: i <= j < |xs| ==> Before(d, xs[j]))
  }

  lemma InsertedIsRanked(d: FileDelta, xs: seq<FileDelta>, i: nat)
    requires Ranked(xs) && Position(d, xs, i)
    ensures Ranked(xs[..i] + [d] + xs[i..])
  {
    var r := xs[..i] + [d] + xs[i..];
    BeforeIsOrder();
    forall p, q | 0 <= p < q < |r|
      ensures !Before(r[q], r[p])
    {
      assert q > i ==> r[q] == xs[q - 1];
      assert p > i ==> r[p] == xs[p - 1];
      assert p == i ==> Before(d, r[q]);
    }
  }

  lemma InsertedAt(d: FileDelta, xs: seq<FileDelta>, i: nat, r: seq<FileDelta>)
    requires i < |r| <= |xs| + 1 && r[i] == d
    requires (forall q :: 0 <= q < i ==> r[q] == xs[q]) && (forall q :: i < q < |r| ==> r[q] == xs[q - 1])
    ensures r == (xs[..i] + [d] + xs[i..])[..|r|]
  {
  }

  class TopList {
    const cap: nat
    const buf: array<FileDelta>
    var len: nat

    constructor (n: nat)
      requires n > 0
      ensures Valid() && cap == n && Contents() == [] && fresh(buf)
    {
      cap := n;
      buf := new FileDelta[n](_ => FileDelta("", 0, 0, 0, Changed));
      len := 0;
    }

    ghost predicate Valid()
      reads this, buf
    {
      0 < cap == buf.Length && len <= cap && Ranked(buf[..len])
    }

    ghost function Contents(): seq<FileDelta>
      requires Valid()
      reads this, buf
    {
      buf[..len]
    }

    /** sort.Search: the smallest index whose element `d` precedes. */
    method Search(d: FileDelta) returns (i: nat)
      requires Valid()
      ensures Position(d, Contents(), i)
    {
      ghost var xs := Contents();
      i := 0;
      var j := len;
      while i < j
        invariant 0 <= i <= j <= len
        invariant forall k :: 0 <= k < i ==> !Before(d, xs[k])
        invariant forall k :: j <= k < len ==> Before(d, xs[k])
      {
        var h := (i + j) / 2;
        if !Before(d, buf[h]) {
          forall k | 0 <= k < h
            ensures !Before(d, xs[k])
          {
            if Before(d, xs[k]) { BeforeThrough(d, xs[k], xs[h]); }
          }
          i := h + 1;
        } else {
          forall k | h < k < len
            ensures Before(d, xs[k])
          {
            BeforeThrough(d, xs[h], xs[k]);
          }
          j := h;
        }
      }
    }

    /** copy(top[i+1:], top[i:]) for a list of `n` elements. */
    method Shift(i: nat, n: nat)
      requires i < n <= buf.Length
      modifies buf
      ensures forall q :: 0 <= q <= i ==> buf[q] == old(buf[q])
      ensures forall q :: i < q < n ==> buf[q] == old(buf[q - 1])
    {
      var k := n - 1;
      while k > i
        invariant i <= k < n
        invariant forall q :: 0 <= q <= k ==> buf[q] == old(buf[q])
        invariant forall q :: k < q < n ==> buf[q] == old(buf[q - 1])
      {
        buf[k] := buf[k - 1];
        k := k - 1;
      }
    }

    /** Make room at `i` and put `d` there; a full list loses its last element. */
    method InsertAt(d: FileDelta, i: nat)
      requires Valid() && i <= len && (len == cap ==> i < len)
      requires Position(d, Contents(), i)
      modifies this`len, buf
      ensures Valid()
      ensures Contents() == Take(cap, old(Contents()[..i]) + [d] + old(Contents()[i..]))
    {
      ghost var xs := Contents();
      if len < cap { len := len + 1; }
      Shift(i, len);
      buf[i] := d;
      InsertedIsRanked(d, xs, i);
      InsertedAt(d, xs, i, buf[..len]);
    }

    /** offer: a delta that cannot make the list is dropped at once. */
    method Offer(d: FileDelta)
      requires Valid()
      modifies this`len, buf
      ensures Valid()
      ensures Contents() == Take(cap, Place(Before, d, old(Contents())))
    {
      ghost var xs := Contents();
      if len == cap && !Before(d, buf[len - 1]) {
        forall j | 0 <= j < len
          ensures !Before(d, xs[j])
        {
          if Before(d, xs[j]) && j < len - 1 { BeforeThrough(d, xs[j], xs[len - 1]); }
        }
        PlaceAt(Before, d, xs, len);
        assert xs[..len] + [d] + xs[len..] == xs + [d];
        return;
      }
      var i := Search(d);
      PlaceAt(Before, d, xs, i);
      InsertAt(d, i);
    }
  }
}
