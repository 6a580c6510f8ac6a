/** The comparison in terms of sets: paths, deltas and chunk hashes. */
module CompareSets {
  import opened Common
  import opened Sorting
  import opened TopDeltas
  import opened Compare

  /** Paths ascend strictly, so no path occurs twice. */
  predicate DistinctPaths(xs: seq<Rec>) {
    forall i, j :: 0 <= i < j < |xs| ==> StringLess(xs[i].path, xs[j].path)
  }

  lemma DistinctInOrder(xs: seq<Rec>)
    requires DistinctPaths(xs)
    ensures InPathOrder(xs)
  {
    forall i, j | 0 <= i < j < |xs|
      ensures !StringLess(xs[j].path, xs[i].path)
    {
      if StringLess(xs[j].path, xs[i].path) { StringTransitive(xs[i].path, xs[j].path, xs[i].path); }
      StringTotal(xs[i].path, xs[i].path);
    }
  }

  function PathSet(xs: seq<Rec>): set<string> {
    set x | x in xs :: x.path
  }

  lemma FirstIsLeast(xs: seq<Rec>, x: Rec)
    requires DistinctPaths(xs) && xs != [] && x in xs[1..]
    ensures StringLess(xs[0].path, x.path) && x.path != xs[0].path
  {
    var i :| 0 <= i < |xs[1..]| && xs[1..][i] == x;
    assert StringLess(xs[0].path, xs[i + 1].path);
    StringTotal(xs[0].path, xs[0].path);
  }

  lemma FirstIsNew(xs: seq<Rec>)
    requires DistinctPaths(xs) && xs != []
    ensures xs[0].path !in PathSet(xs[1..]) && PathSet(xs) == {xs[0].path} + PathSet(xs[1..])
  {
    forall x | x in xs[1..]
      ensures x.path != xs[0].path
    {
      FirstIsLeast(xs, x);
    }
    assert xs == [xs[0]] + xs[1..];
  }

  lemma BagOfInsert(s: set<string>, p: string)
    requires p !in s
    ensures multiset({p} + s) == multiset{p} + multiset(s)
  {
  }

  lemma {:induction false} BagIsSet(xs: seq<Rec>)
    requires DistinctPaths(xs)
    ensures PathBag(xs) == multiset(PathSet(xs))
  {
    if xs != [] {
      BagIsSet(xs[1..]);
      BagAfterFirst(xs);
      FirstIsNew(xs);
      BagOfInsert(PathSet(xs[1..]), xs[0].path);
    }
  }

  lemma BagCounts(a: set<string>, b: set<string>)
    ensures |multiset(a) - multiset(b)| == |a - b| && |multiset(a) * multiset(b)| == |a * b|
  {
    assert multiset(a) - multiset(b) == multiset(a - b);
    assert multiset(a) * multiset(b) == multiset(a * b);
  }

  /** With distinct paths on each side the counts are set differences and an intersection. */
  lemma CountsAreSetCounts(xs: seq<Rec>, ys: seq<Rec>)
    requires DistinctPaths(xs) && DistinctPaths(ys)
    ensures |PathBag(xs) - PathBag(ys)| == |PathSet(xs) - PathSet(ys)|
    ensures |PathBag(ys) - PathBag(xs)| == |PathSet(ys) - PathSet(xs)|
    ensures |PathBag(xs) * PathBag(ys)| == |PathSet(xs) * PathSet(ys)|
  {
    BagIsSet(xs);
    BagIsSet(ys);
    BagCounts(PathSet(xs), PathSet(ys));
    BagCounts(PathSet(ys), PathSet(xs));
  }

  lemma SetSplit(a: set<string>, b: set<string>)
    ensures |a| == |a - b| + |a * b|
  {
    assert a == (a - b) + a * b;
  }

  /** The documented sum of the three counts, the larger file count, is right exactly when one side's paths contain
      the other's; in general the sum is the size of the union. */
  lemma CountsSumToUnion(a: set<string>, b: set<string>)
    ensures |a - b| + |b - a| + |a * b| == |a + b|
    ensures |a - b| + |b - a| + |a * b| == Max(|a|, |b|) <==> a <= b || b <= a
  {
    SetSplit(a, b);
    SetSplit(b, a);
    assert a * b == b * a;
    assert a + b == (a - b) + b;
    assert |a - b| == 0 <==> a - b == {};
    assert |b - a| == 0 <==> b - a == {};
    assert a - b == {} <==> a <= b;
    assert b - a == {} <==> b <= a;
  }

  // ---- deltas ----

  /** The definition of a delta on the two sets of files. */
  ghost predicate IsDelta(xs: seq<Rec>, ys: seq<Rec>, d: FileDelta) {
    || (exists x :: x in xs && x.path !in PathSet(ys) && d == RemovedFile(x))
    || (exists y :: y in ys && y.path !in PathSet(xs) && d == AddedFile(y))
    || (exists x, y :: x in xs && y in ys && x.path == y.path && x.sig != y.sig && d == ChangedFile(x, y))
  }

  lemma DeltaTailA(xs: seq<Rec>, ys: seq<Rec>, d: FileDelta)
    requires DistinctPaths(xs) && xs != [] && xs[0].path !in PathSet(ys)
    ensures IsDelta(xs, ys, d) <==> d == RemovedFile(xs[0]) || IsDelta(xs[1..], ys, d)
  {
    assert forall x :: x in xs <==> x == xs[0] || x in xs[1..] by { assert xs == [xs[0]] + xs[1..]; }
    assert forall y :: y in ys ==> (y.path in PathSet(xs) <==> y.path in PathSet(xs[1..]));
  }

  lemma DeltaTailB(xs: seq<Rec>, ys: seq<Rec>, d: FileDelta)
    requires DistinctPaths(ys) && ys != [] && ys[0].path !in PathSet(xs)
    ensures IsDelta(xs, ys, d) <==> d == AddedFile(ys[0]) || IsDelta(xs, ys[1..], d)
  {
    assert forall y :: y in ys <==> y == ys[0] || y in ys[1..] by { assert ys == [ys[0]] + ys[1..]; }
    assert forall x :: x in xs ==> (x.path in PathSet(ys) <==> x.path in PathSet(ys[1..]));
  }

  lemma DeltaTailBoth(xs: seq<Rec>, ys: seq<Rec>, d: FileDelta)
    requires DistinctPaths(xs) && DistinctPaths(ys) && xs != [] && ys != [] && xs[0].path == ys[0].path
    ensures IsDelta(xs, ys, d) <==>
              (xs[0].sig != ys[0].sig && d == ChangedFile(xs[0], ys[0])) || IsDelta(xs[1..], ys[1..], d)
  {
    assert forall x :: x in xs <==> x == xs[0] || x in xs[1..] by { assert xs == [xs[0]] + xs[1..]; }
    assert forall y :: y in ys <==> y == ys[0] || y in ys[1..] by { assert ys == [ys[0]] + ys[1..]; }
    forall x | x in xs[1..]
      ensures x.path != xs[0].path && (x.path in PathSet(ys) <==> x.path in PathSet(ys[1..]))
    {
      FirstIsLeast(xs, x);
    }
    forall y | y in ys[1..]
      ensures y.path != xs[0].path && (y.path in PathSet(xs) <==> y.path in PathSet(xs[1..]))
    {
      FirstIsLeast(ys, y);
    }
  }

  /** The join meets every delta of the two sets, and nothing else. */
  lemma {:induction false} DeltasAreExact(xs: seq<Rec>, ys: seq<Rec>, d: FileDelta)
    requires DistinctPaths(xs) && DistinctPaths(ys)
    ensures d in Deltas(xs, ys) <==> IsDelta(xs, ys, d)
    decreases |xs| + |ys|
  {
    if xs != [] || ys != [] {
      DistinctInOrder(xs);
      DistinctInOrder(ys);
      CaseMeans(xs, ys);
      match CaseOf(xs, ys)
      case OnlyA => DeltasAreExact(xs[1..], ys, d); DeltaTailA(xs, ys, d);
      case OnlyB => DeltasAreExact(xs, ys[1..], d); DeltaTailB(xs, ys, d);
      case Both => DeltasAreExact(xs[1..], ys[1..], d); DeltaTailBoth(xs, ys, d);
    }
  }

  predicate AscendingPaths(ds: seq<FileDelta>) {
    forall i, j :: 0 <= i < j < |ds| ==> StringLess(ds[i].path, ds[j].path)
  }

  /** Everything that follows the heads of both streams lies behind a path that precedes both. */
  lemma BehindHeads(xs: seq<Rec>, ys: seq<Rec>, p: string, d: FileDelta)
    requires DistinctPaths(xs) && DistinctPaths(ys) && d in Deltas(xs, ys)
    requires forall x :: x in xs || x in ys ==> StringLess(p, x.path)
    ensures StringLess(p, d.path)
  {
    DeltasAreExact(xs, ys, d);
  }

  lemma Prepend(d: FileDelta, ds: seq<FileDelta>)
    requires AscendingPaths(ds) && forall e :: e in ds ==> StringLess(d.path, e.path)
    ensures AscendingPaths([d] + ds)
  {
  }

  lemma BehindTail(xs: seq<Rec>, x: Rec, p: string)
    requires DistinctPaths(xs) && xs != [] && x in xs && ((p == xs[0].path && x in xs[1..]) || StringLess(p, xs[0].path))
    ensures StringLess(p, x.path)
  {
    assert xs == [xs[0]] + xs[1..];
    if x in xs[1..] {
      FirstIsLeast(xs, x);
      if StringLess(p, xs[0].path) { StringTransitive(p, xs[0].path, x.path); }
    }
  }

  /** The heads of what remains after a step all lie behind the path that the step handled. */
  lemma BehindStep(xs: seq<Rec>, ys: seq<Rec>, xs': seq<Rec>, ys': seq<Rec>, p: string)
    requires DistinctPaths(xs) && DistinctPaths(ys)
    requires (xs' == xs && (xs == [] || StringLess(p, xs[0].path))) || (xs != [] && xs' == xs[1..] && p == xs[0].path)
    requires (ys' == ys && (ys == [] || StringLess(p, ys[0].path))) || (ys != [] && ys' == ys[1..] && p == ys[0].path)
    ensures forall x :: x in xs' || x in ys' ==> StringLess(p, x.path)
  {
    forall x | x in xs'
      ensures StringLess(p, x.path)
    {
      BehindTail(xs, x, p);
    }
    forall y | y in ys'
      ensures StringLess(p, y.path)
    {
      BehindTail(ys, y, p);
    }
  }

  lemma StepDeltas(xs: seq<Rec>, ys: seq<Rec>, d: FileDelta)
    requires DistinctPaths(xs) && DistinctPaths(ys) && AscendingPaths(Deltas(xs, ys))
    requires forall x :: x in xs || x in ys ==> StringLess(d.path, x.path)
    ensures AscendingPaths([d] + Deltas(xs, ys))
  {
    forall e | e in Deltas(xs, ys)
      ensures StringLess(d.path, e.path)
    {
      BehindHeads(xs, ys, d.path, e);
    }
    Prepend(d, Deltas(xs, ys));
  }

  lemma {:induction false} DeltasAscend(xs: seq<Rec>, ys: seq<Rec>)
    requires DistinctPaths(xs) && DistinctPaths(ys)
    ensures AscendingPaths(Deltas(xs, ys))
    decreases |xs| + |ys|
  {
    if xs != [] || ys != [] {
      DistinctInOrder(xs);
      DistinctInOrder(ys);
      CaseMeans(xs, ys);
      match CaseOf(xs, ys)
      case OnlyA =>
        DeltasAscend(xs[1..], ys);
        BehindStep(xs, ys, xs[1..], ys, xs[0].path);
        StepDeltas(xs[1..], ys, RemovedFile(xs[0]));
      case OnlyB =>
        DeltasAscend(xs, ys[1..]);
        BehindStep(xs, ys, xs, ys[1..], ys[0].path);
        StepDeltas(xs, ys[1..], AddedFile(ys[0]));
      case Both =>
        DeltasAscend(xs[1..], ys[1..]);
        BehindStep(xs, ys, xs[1..], ys[1..], xs[0].path);
        StepDeltas(xs[1..], ys[1..], ChangedFile(xs[0], ys[0]));
    }
  }

  predicate NoRepeats(ds: seq<FileDelta>) {
    forall i, j :: 0 <= i < j < |ds| ==> ds[i] != ds[j]
  }

  lemma {:induction false} CountOnce(ds: seq<FileDelta>, d: FileDelta)
    requires NoRepeats(ds)
    ensures multiset(ds)[d] == if d in ds then 1 else 0
  {
    if ds != [] {
      assert ds == [ds[0]] + ds[1..];
      CountOnce(ds[1..], d);
    }
  }

  lemma AscendingNoRepeats(ds: seq<FileDelta>)
    requires AscendingPaths(ds)
    ensures NoRepeats(ds) && Separates(Before, ds)
  {
    forall i, j | 0 <= i < j < |ds|
      ensures ds[i] != ds[j] && (Before(ds[i], ds[j]) || Before(ds[j], ds[i]))
    {
      StringTotal(ds[i].path, ds[i].path);
    }
  }

  /** The reported list is the first `topN` of the deltas of the two sets in rank order, however they are listed. */
  lemma TopIsCanonical(xs: seq<Rec>, ys: seq<Rec>, ds: seq<FileDelta>)
    requires DistinctPaths(xs) && DistinctPaths(ys)
    requires NoRepeats(ds) && forall d :: d in ds <==> IsDelta(xs, ys, d)
    ensures Sort(Before, Deltas(xs, ys)) == Sort(Before, ds)
    ensures Ascends(Before, Sort(Before, ds)) && multiset(Sort(Before, ds)) == multiset(ds)
  {
    var all := Deltas(xs, ys);
    DeltasAscend(xs, ys);
    AscendingNoRepeats(all);
    forall d: FileDelta
      ensures multiset(all)[d] == multiset(ds)[d]
    {
      DeltasAreExact(xs, ys, d);
      CountOnce(all, d);
      CountOnce(ds, d);
    }
    assert multiset(all) == multiset(ds);
    BeforeIsOrder();
    SortAscends(Before, all);
    SortElements(Before, all);
    SeparatesSome(Before, all, ds);
    SortUnique(Before, ds, Sort(Before, all));
  }

  // ---- unchanged files ----

  /** The unchanged files are the records that both sides have in common, each once. */
  lemma {:induction false} UnchangedIsCommon(xs: seq<Rec>, ys: seq<Rec>, r: Rec)
    requires DistinctPaths(xs) && DistinctPaths(ys)
    ensures r in Unchanged(xs, ys) <==> r in xs && r in ys
    decreases |xs| + |ys|
  {
    if xs != [] || ys != [] {
      DistinctInOrder(xs);
      DistinctInOrder(ys);
      CaseMeans(xs, ys);
      assert xs != [] ==> xs == [xs[0]] + xs[1..];
      assert ys != [] ==> ys == [ys[0]] + ys[1..];
      match CaseOf(xs, ys)
      case OnlyA => UnchangedIsCommon(xs[1..], ys, r);
      case OnlyB => UnchangedIsCommon(xs, ys[1..], r);
      case Both =>
        UnchangedIsCommon(xs[1..], ys[1..], r);
        if r in xs[1..] { FirstIsLeast(xs, r); }
        if r in ys[1..] { FirstIsLeast(ys, r); }
    }
  }

  lemma {:induction false} UnchangedDistinct(xs: seq<Rec>, ys: seq<Rec>)
    requires DistinctPaths(xs) && DistinctPaths(ys)
    ensures DistinctPaths(Unchanged(xs, ys))
    decreases |xs| + |ys|
  {
    if xs != [] || ys != [] {
      DistinctInOrder(xs);
      DistinctInOrder(ys);
      CaseMeans(xs, ys);
      match CaseOf(xs, ys)
      case OnlyA => UnchangedDistinct(xs[1..], ys);
      case OnlyB => UnchangedDistinct(xs, ys[1..]);
      case Both =>
        UnchangedDistinct(xs[1..], ys[1..]);
        forall r | r in Unchanged(xs[1..], ys[1..])
          ensures StringLess(xs[0].path, r.path)
        {
          UnchangedIsCommon(xs[1..], ys[1..], r);
          FirstIsLeast(xs, r);
        }
    }
  }
}
