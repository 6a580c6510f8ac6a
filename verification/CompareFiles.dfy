/** The comparison put together, and what it says about the files of the two backups. */
module CompareFiles {
  import opened Common
  import opened Sorting
  import opened TopDeltas
  import opened Compare
  import opened CompareSets
  import opened CompareScan

  const DEFAULT_TOP: nat := 20

  datatype Comparison = Comparison(chunks: ChunkCounts, join: JoinResult, delta: int)

  // ---- the sorted index of one side ----

  predicate PathLess(x: Rec, y: Rec) {
    StringLess(x.path, y.path)
  }

  lemma PathLessIsOrder()
    ensures WeakOrder(PathLess)
  {
    forall x: Rec, y: Rec | PathLess(x, y)
      ensures !PathLess(y, x)
    {
      if PathLess(y, x) { StringTransitive(x.path, y.path, x.path); }
      StringTotal(x.path, x.path);
    }
    forall x: Rec, y: Rec, z: Rec | PathLess(x, z) && !PathLess(y, z)
      ensures PathLess(x, y)
    {
      StringTotal(x.path, y.path);
      if PathLess(y, x) { StringTransitive(y.path, x.path, z.path); }
    }
  }

  /** The sorter's contract: the records in path order. */
  ghost predicate SortedFrom(xs: seq<Rec>, index: seq<Rec>) {
    InPathOrder(xs) && multiset(xs) == multiset(index)
  }

  function RecOf(digest: seq<Chunk> -> string, f: FileEntry): Rec {
    Rec(f.path, Sig(f.size, digest(f.chunks)))
  }

  predicate UniquePaths(files: seq<FileEntry>) {
    forall i, j :: 0 <= i < j < |files| ==> files[i].path != files[j].path
  }

  lemma {:induction false} RecordsOf(digest: seq<Chunk> -> string, files: seq<FileEntry>)
    ensures var rs := Records(digest, files);
            |rs| == |files| && forall i :: 0 <= i < |rs| ==> rs[i] == RecOf(digest, files[i])
  {
    if files != [] { RecordsOf(digest, Front(files)); }
  }

  /** Two records at different places of a sorted index come from different files. */
  lemma DistinctFrom(xs: seq<Rec>, index: seq<Rec>)
    requires SortedFrom(xs, index)
    requires forall i, j :: 0 <= i < j < |index| ==> index[i].path != index[j].path
    ensures DistinctPaths(xs)
  {
    forall i, j | 0 <= i < j < |xs|
      ensures StringLess(xs[i].path, xs[j].path)
    {
      StringTotal(xs[i].path, xs[j].path);
      var p, q := TwoPlaces(xs, index, i, j);
    }
  }

  lemma IndexRecords(digest: seq<Chunk> -> string, files: seq<FileEntry>, xs: seq<Rec>)
    requires multiset(xs) == multiset(Records(digest, files))
    ensures forall x :: x in xs <==> exists f :: f in files && RecOf(digest, f) == x
  {
    var index := Records(digest, files);
    RecordsOf(digest, files);
    forall x | x in xs
      ensures exists f :: f in files && RecOf(digest, f) == x
    {
      assert x in multiset(index);
      var i :| 0 <= i < |index| && index[i] == x;
      assert files[i] in files;
    }
    forall f | f in files
      ensures RecOf(digest, f) in xs
    {
      var i :| 0 <= i < |files| && files[i] == f;
      assert index[i] in multiset(index);
    }
  }

  lemma IndexPaths(digest: seq<Chunk> -> string, files: seq<FileEntry>, xs: seq<Rec>)
    requires forall x :: x in xs <==> exists f :: f in files && RecOf(digest, f) == x
    ensures PathSet(xs) == FilePaths(files)
  {
    forall f | f in files
      ensures f.path in PathSet(xs)
    {
      assert RecOf(digest, f) in xs;
    }
  }

  lemma IndexOf(digest: seq<Chunk> -> string, files: seq<FileEntry>, xs: seq<Rec>)
    requires SortedFrom(xs, Records(digest, files))
    ensures forall x :: x in xs <==> exists f :: f in files && RecOf(digest, f) == x
    ensures PathSet(xs) == FilePaths(files)
    ensures UniquePaths(files) ==> DistinctPaths(xs)
  {
    IndexRecords(digest, files, xs);
    IndexPaths(digest, files, xs);
    if UniquePaths(files) {
      RecordsOf(digest, files);
      DistinctFrom(xs, Records(digest, files));
    }
  }

  // ---- the diff of two sets of files ----

  function FilePaths(files: seq<FileEntry>): set<string> {
    set f | f in files :: f.path
  }

  /** The paths that name the same bytes on both sides. */
  ghost function SamePaths(digest: seq<Chunk> -> string, a: seq<FileEntry>, b: seq<FileEntry>): set<string> {
    set f, g | f in a && g in b && f.path == g.path && f.size == g.size && digest(f.chunks) == digest(g.chunks) :: f.path
  }

  predicate FilesChanged(digest: seq<Chunk> -> string, f: FileEntry, g: FileEntry, d: FileDelta) {
    && f.path == g.path && (f.size != g.size || digest(f.chunks) != digest(g.chunks))
    && d == FileDelta(f.path, f.size, g.size, g.size - f.size, Changed)
  }

  /** A file of one side only, or two different files under one path. */
  ghost predicate FileDiffers(digest: seq<Chunk> -> string, a: seq<FileEntry>, b: seq<FileEntry>, d: FileDelta) {
    || (exists f :: f in a && f.path !in FilePaths(b) && d == FileDelta(f.path, f.size, 0, -f.size, Removed))
    || (exists g :: g in b && g.path !in FilePaths(a) && d == FileDelta(g.path, 0, g.size, g.size, Added))
    || (exists f, g :: f in a && g in b && FilesChanged(digest, f, g, d))
  }

  /** `ds` lists the differences, each once, in any order. */
  ghost predicate ListsDiff(digest: seq<Chunk> -> string, a: seq<FileEntry>, b: seq<FileEntry>, ds: seq<FileDelta>) {
    NoRepeats(ds) && forall d :: d in ds <==> FileDiffers(digest, a, b, d)
  }

  /** The size of the file stored under a path. */
  function SizeAt(files: seq<FileEntry>, path: string): int {
    if files == [] then 0
    else if Last(files).path == path then Last(files).size
    else SizeAt(Front(files), path)
  }

  /** The result as a statement on the two sets of files. */
  ghost predicate IsDiff(digest: seq<Chunk> -> string, a: seq<FileEntry>, b: seq<FileEntry>, n: nat, j: JoinResult) {
    && j.counts.onlyInA == |FilePaths(a) - FilePaths(b)|
    && j.counts.onlyInB == |FilePaths(b) - FilePaths(a)|
    && j.counts.inBoth == |FilePaths(a) * FilePaths(b)|
    && j.counts.changed == |FilePaths(a) * FilePaths(b) - SamePaths(digest, a, b)|
    && j.shared == Sum((p: string) => SizeAt(a, p), SamePaths(digest, a, b))
    && forall ds :: ListsDiff(digest, a, b, ds) ==> j.top == Take(n, Sort(Before, ds)) && Largest(n, ds, j.top)
  }

  lemma {:induction false} SizeAtFile(files: seq<FileEntry>, i: nat)
    requires UniquePaths(files) && i < |files|
    ensures SizeAt(files, files[i].path) == files[i].size
  {
    if i < |files| - 1 { SizeAtFile(Front(files), i); }
  }

  lemma SumWithLast(size: string -> int, xs: seq<Rec>)
    requires DistinctPaths(xs) && xs != []
    ensures Sum(size, PathSet(xs)) == Sum(size, PathSet(Front(xs))) + size(Last(xs).path)
    ensures |PathSet(xs)| == |PathSet(Front(xs))| + 1
  {
    forall x | x in Front(xs)
      ensures x.path != Last(xs).path
    {
      StringTotal(x.path, x.path);
    }
    SumAdd(size, PathSet(Front(xs)), Last(xs).path);
    assert xs == Front(xs) + [Last(xs)];
    assert PathSet(Front(xs)) + {Last(xs).path} == PathSet(xs);
  }

  predicate SizesFit(size: string -> int, xs: seq<Rec>) {
    forall i :: 0 <= i < |xs| ==> xs[i].sig.size == size(xs[i].path)
  }

  /** Adding up a list of records without repeated paths adds up over the set of their paths. */
  lemma {:induction false} SizesAreSum(size: string -> int, xs: seq<Rec>)
    requires DistinctPaths(xs) && SizesFit(size, xs)
    ensures Sizes(xs) == Sum(size, PathSet(xs)) && |xs| == |PathSet(xs)|
  {
    if xs != [] {
      SizesAreSum(size, Front(xs));
      SumWithLast(size, xs);
    }
  }

  lemma UnchangedIsSame(digest: seq<Chunk> -> string, a: seq<FileEntry>, b: seq<FileEntry>, xs: seq<Rec>, ys: seq<Rec>)
    requires UniquePaths(a) && UniquePaths(b)
    requires SortedFrom(xs, Records(digest, a)) && SortedFrom(ys, Records(digest, b))
    ensures PathSet(Unchanged(xs, ys)) == SamePaths(digest, a, b)
    ensures Sizes(Unchanged(xs, ys)) == Sum((p: string) => SizeAt(a, p), SamePaths(digest, a, b))
    ensures |Unchanged(xs, ys)| == |SamePaths(digest, a, b)|
  {
    IndexOf(digest, a, xs);
    IndexOf(digest, b, ys);
    var same := Unchanged(xs, ys);
    forall x
      ensures x in same <==> x in xs && x in ys
    {
      UnchangedIsCommon(xs, ys, x);
    }
    forall k | 0 <= k < |same|
      ensures same[k].sig.size == SizeAt(a, same[k].path)
    {
      assert same[k] in xs;
      var f :| f in a && RecOf(digest, f) == same[k];
      var i :| 0 <= i < |a| && a[i] == f;
      SizeAtFile(a, i);
    }
    SamePathSets(digest, a, b, xs, ys, same);
    UnchangedDistinct(xs, ys);
    SizesAreSum((p: string) => SizeAt(a, p), same);
  }

  lemma SamePathSets(digest: seq<Chunk> -> string, a: seq<FileEntry>, b: seq<FileEntry>, xs: seq<Rec>, ys: seq<Rec>, same: seq<Rec>)
    requires forall x :: x in same <==> x in xs && x in ys
    requires forall x :: x in xs <==> exists f :: f in a && RecOf(digest, f) == x
    requires forall y :: y in ys <==> exists g :: g in b && RecOf(digest, g) == y
    ensures PathSet(same) == SamePaths(digest, a, b)
  {
    forall p | p in PathSet(same)
      ensures p in SamePaths(digest, a, b)
    {
      var x :| x in same && x.path == p;
      var f :| f in a && RecOf(digest, f) == x;
      var g :| g in b && RecOf(digest, g) == x;
    }
    forall p | p in SamePaths(digest, a, b)
      ensures p in PathSet(same)
    {
      var f, g :| f in a && g in b && f.path == g.path == p && f.size == g.size && digest(f.chunks) == digest(g.chunks);
      assert RecOf(digest, f) in xs && RecOf(digest, g) in ys;
    }
  }

  lemma DiffIsDelta(digest: seq<Chunk> -> string, a: seq<FileEntry>, b: seq<FileEntry>, xs: seq<Rec>, ys: seq<Rec>, d: FileDelta)
    requires SortedFrom(xs, Records(digest, a)) && SortedFrom(ys, Records(digest, b))
    ensures IsDelta(xs, ys, d) <==> FileDiffers(digest, a, b, d)
  {
    IndexOf(digest, a, xs);
    IndexOf(digest, b, ys);
    if IsDelta(xs, ys, d) { DeltaIsDiff(digest, a, b, xs, ys, d); }
    if FileDiffers(digest, a, b, d) { DiffHasDelta(digest, a, b, xs, ys, d); }
  }

  lemma DiffHasDelta(digest: seq<Chunk> -> string, a: seq<FileEntry>, b: seq<FileEntry>, xs: seq<Rec>, ys: seq<Rec>, d: FileDelta)
    requires forall x :: x in xs <==> exists f :: f in a && RecOf(digest, f) == x
    requires forall y :: y in ys <==> exists g :: g in b && RecOf(digest, g) == y
    requires PathSet(xs) == FilePaths(a) && PathSet(ys) == FilePaths(b) && FileDiffers(digest, a, b, d)
    ensures IsDelta(xs, ys, d)
  {
    if f :| f in a && f.path !in FilePaths(b) && d == FileDelta(f.path, f.size, 0, -f.size, Removed) {
      assert RecOf(digest, f) in xs && d == RemovedFile(RecOf(digest, f));
    } else if g :| g in b && g.path !in FilePaths(a) && d == FileDelta(g.path, 0, g.size, g.size, Added) {
      assert RecOf(digest, g) in ys && d == AddedFile(RecOf(digest, g));
    } else {
      var f, g :| f in a && g in b && FilesChanged(digest, f, g, d);
      var x, y := RecOf(digest, f), RecOf(digest, g);
      assert x in xs && y in ys && d == ChangedFile(x, y);
    }
  }

  lemma DeltaIsDiff(digest: seq<Chunk> -> string, a: seq<FileEntry>, b: seq<FileEntry>, xs: seq<Rec>, ys: seq<Rec>, d: FileDelta)
    requires forall x :: x in xs <==> exists f :: f in a && RecOf(digest, f) == x
    requires forall y :: y in ys <==> exists g :: g in b && RecOf(digest, g) == y
    requires PathSet(xs) == FilePaths(a) && PathSet(ys) == FilePaths(b) && IsDelta(xs, ys, d)
    ensures FileDiffers(digest, a, b, d)
  {
    if x :| x in xs && x.path !in PathSet(ys) && d == RemovedFile(x) {
      var f :| f in a && RecOf(digest, f) == x;
    } else if y :| y in ys && y.path !in PathSet(xs) && d == AddedFile(y) {
      var g :| g in b && RecOf(digest, g) == y;
    } else {
      var x, y :| x in xs && y in ys && x.path == y.path && x.sig != y.sig && d == ChangedFile(x, y);
      var f :| f in a && RecOf(digest, f) == x;
      var g :| g in b && RecOf(digest, g) == y;
      assert FilesChanged(digest, f, g, d);
    }
  }

  /** Any listing of the differences sorts to the deltas of the join. */
  lemma DiffSortsToDeltas(digest: seq<Chunk> -> string, a: seq<FileEntry>, b: seq<FileEntry>, xs: seq<Rec>, ys: seq<Rec>,
                          ds: seq<FileDelta>)
    requires DistinctPaths(xs) && DistinctPaths(ys) && ListsDiff(digest, a, b, ds)
    requires SortedFrom(xs, Records(digest, a)) && SortedFrom(ys, Records(digest, b))
    ensures Sort(Before, Deltas(xs, ys)) == Sort(Before, ds)
  {
    forall d
      ensures d in ds <==> IsDelta(xs, ys, d)
    {
      DiffIsDelta(digest, a, b, xs, ys, d);
    }
    TopIsCanonical(xs, ys, ds);
  }

  lemma FileCountsAreSetCounts(digest: seq<Chunk> -> string, a: seq<FileEntry>, b: seq<FileEntry>, xs: seq<Rec>, ys: seq<Rec>)
    requires UniquePaths(a) && UniquePaths(b)
    requires SortedFrom(xs, Records(digest, a)) && SortedFrom(ys, Records(digest, b))
    ensures |PathBag(xs) - PathBag(ys)| == |FilePaths(a) - FilePaths(b)|
    ensures |PathBag(ys) - PathBag(xs)| == |FilePaths(b) - FilePaths(a)|
    ensures |PathBag(xs) * PathBag(ys)| == |FilePaths(a) * FilePaths(b)|
  {
    IndexOf(digest, a, xs);
    IndexOf(digest, b, ys);
    CountsAreSetCounts(xs, ys);
  }

  lemma SameAreCommon(digest: seq<Chunk> -> string, a: seq<FileEntry>, b: seq<FileEntry>)
    ensures var both, same := FilePaths(a) * FilePaths(b), SamePaths(digest, a, b);
            |both - same| == |both| - |same|
  {
    var both, same := FilePaths(a) * FilePaths(b), SamePaths(digest, a, b);
    assert same <= both;
    assert both == (both - same) + same;
  }

  lemma TopIsDiff(digest: seq<Chunk> -> string, a: seq<FileEntry>, b: seq<FileEntry>, xs: seq<Rec>, ys: seq<Rec>,
                  n: nat, top: seq<FileDelta>)
    requires UniquePaths(a) && UniquePaths(b) && top == Take(n, Sort(Before, Deltas(xs, ys)))
    requires SortedFrom(xs, Records(digest, a)) && SortedFrom(ys, Records(digest, b))
    ensures forall ds :: ListsDiff(digest, a, b, ds) ==> top == Take(n, Sort(Before, ds)) && Largest(n, ds, top)
  {
    IndexOf(digest, a, xs);
    IndexOf(digest, b, ys);
    forall ds | ListsDiff(digest, a, b, ds)
      ensures top == Take(n, Sort(Before, ds)) && Largest(n, ds, top)
    {
      FirstAreLargest(n, ds);
      DiffSortsToDeltas(digest, a, b, xs, ys, ds);
    }
  }

  /** What the merge-join of the two sorted indexes reports is the diff of the two sets of files. */
  lemma JoinIsDiff(digest: seq<Chunk> -> string, a: seq<FileEntry>, b: seq<FileEntry>, xs: seq<Rec>, ys: seq<Rec>,
                   n: nat, j: JoinResult)
    requires UniquePaths(a) && UniquePaths(b)
    requires SortedFrom(xs, Records(digest, a)) && SortedFrom(ys, Records(digest, b))
    requires j.counts.onlyInA == |PathBag(xs) - PathBag(ys)| && j.counts.onlyInB == |PathBag(ys) - PathBag(xs)|
    requires j.counts.inBoth == |PathBag(xs) * PathBag(ys)|
    requires j.counts.changed == j.counts.inBoth - |Unchanged(xs, ys)| && j.shared == Sizes(Unchanged(xs, ys))
    requires j.top == Take(n, Sort(Before, Deltas(xs, ys)))
    ensures IsDiff(digest, a, b, n, j)
  {
    FileCountsAreSetCounts(digest, a, b, xs, ys);
    UnchangedIsSame(digest, a, b, xs, ys);
    SameAreCommon(digest, a, b);
    TopIsDiff(digest, a, b, xs, ys, n, j.top);
  }

  /** The whole comparison: chunk counts and bytes of the hash sets, path counts of the path bags, the first topN
      deltas in rank order; and the diff of the two sets of files whenever paths are unique on each side. */
  method CompareManifests(digest: seq<Chunk> -> string, a: seq<FileEntry>, b: seq<FileEntry>, topN: int,
                          ghost lenOf: string -> int) returns (r: Comparison, ghost xs: seq<Rec>, ghost ys: seq<Rec>)
    requires forall f :: f in a || f in b ==> LengthsFit(lenOf, f.chunks)
    ensures SortedFrom(xs, Records(digest, a)) && SortedFrom(ys, Records(digest, b))
    ensures var ha, hb := AllHashes(a), AllHashes(b);
            && r.chunks.shared == |ha * hb| && r.chunks.aOnly == |ha - hb| && r.chunks.bOnly == |hb - ha|
            && r.chunks.sharedBytes == Sum(lenOf, ha * hb)
            && r.chunks.aOnlyBytes == Sum(lenOf, ha - hb) && r.chunks.bOnlyBytes == Sum(lenOf, hb - ha)
    ensures r.join.counts.onlyInA == |PathBag(xs) - PathBag(ys)|
    ensures r.join.counts.onlyInB == |PathBag(ys) - PathBag(xs)|
    ensures r.join.counts.inBoth == |PathBag(xs) * PathBag(ys)|
    ensures r.join.counts.changed == r.join.counts.inBoth - |Unchanged(xs, ys)|
    ensures r.join.shared == Sizes(Unchanged(xs, ys))
    ensures r.join.top == Take(if topN <= 0 then DEFAULT_TOP else topN, Sort(Before, Deltas(xs, ys)))
    ensures UniquePaths(a) && UniquePaths(b) ==> IsDiff(digest, a, b, if topN <= 0 then DEFAULT_TOP else topN, r.join)
    ensures r.delta == LogicalBytes(b) - LogicalBytes(a)
  {
    var n := if topN <= 0 then DEFAULT_TOP else topN;
    var sideA := ScanSide(digest, a, {}, lenOf);
    var sideB := ScanSide(digest, b, sideA.tally.set_, lenOf);
    DerivedIsExact(sideA.tally, sideB.tally, lenOf);
    PathLessIsOrder();
    var ax := SpillSort(PathLess, sideA.index);
    var bx := SpillSort(PathLess, sideB.index);
    var join := MergeJoin(ax, bx, n);
    xs, ys := ax, bx;
    if UniquePaths(a) && UniquePaths(b) { JoinIsDiff(digest, a, b, xs, ys, n, join); }
    r := Comparison(Derive(sideA.tally, sideB.tally), join, sideB.logical - sideA.logical);
  }
}
