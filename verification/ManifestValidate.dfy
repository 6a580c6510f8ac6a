/** The file-level gate of a manifest: contiguous chunks, unique paths, no directory in place of a file. */
module ManifestValidate {
  import opened Common

  datatype Hash = ZeroHash | Hash(hex: string)

  datatype ChunkRef = ChunkRef(hash: Hash, len: int, offset: int)

  datatype FileEntry = FileEntry(path: string, tablespace: nat, size: int, chunks: seq<ChunkRef>)

  datatype DirEntry = DirEntry(path: string, tablespace: nat)

  predicate Typed(f: FileEntry) {
    Int64(f.size) && forall c :: c in f.chunks ==> Int64(c.len) && Int64(c.offset)
  }

  // ---- one file ----

  /** The true sum of the first `n` chunk lengths. */
  function Sum(cs: seq<ChunkRef>, n: nat): int
    requires n <= |cs|
  {
    if n == 0 then 0 else Sum(cs, n - 1) + cs[n - 1].len
  }

  /** The running sum as 64-bit addition computes it. */
  function Sum64(cs: seq<ChunkRef>, n: nat): (r: int)
    requires n <= |cs|
    ensures Int64(r)
  {
    if n == 0 then 0 else Wrap64(Sum64(cs, n - 1) + cs[n - 1].len)
  }

  /** A chunk with content, at the running offset. */
  predicate ChunkFits(cs: seq<ChunkRef>, i: nat)
    requires i < |cs|
  {
    !cs[i].hash.ZeroHash? && cs[i].len > 0 && cs[i].offset == Sum64(cs, i)
  }

  predicate FileOK(safe: string -> bool, f: FileEntry) {
    && f.path != "" && safe(f.path) && f.size >= 0
    && (forall i :: 0 <= i < |f.chunks| ==> ChunkFits(f.chunks, i))
    && Sum64(f.chunks, |f.chunks|) == f.size
  }

  /** validateFileEntry */
  method ValidateFile(safe: string -> bool, f: FileEntry) returns (ok: bool)
    requires Typed(f)
    ensures ok <==> FileOK(safe, f)
  {
    if f.path == "" || !safe(f.path) || f.size < 0 {
      return false;
    }
    var chunkSum, nextOff := 0, 0;
    var j := 0;
    while j < |f.chunks|
      invariant 0 <= j <= |f.chunks|
      invariant chunkSum == nextOff == Sum64(f.chunks, j)
      invariant forall i :: 0 <= i < j ==> ChunkFits(f.chunks, i)
    {
      var c := f.chunks[j];
      if c.hash.ZeroHash? || c.len <= 0 || c.offset != nextOff {
        assert !ChunkFits(f.chunks, j);
        return false;
      }
      nextOff := Wrap64(nextOff + c.len);
      chunkSum := Wrap64(chunkSum + c.len);
      j := j + 1;
    }
    ok := chunkSum == f.size;
  }

  predicate Covers(c: ChunkRef, x: int) {
    c.offset <= x < c.offset + c.len
  }

  /** Every byte of the file lies in exactly one chunk, and every chunk lies inside the file. */
  ghost predicate Tiles(f: FileEntry) {
    && (forall i :: 0 <= i < |f.chunks| ==> Inside(f, i))
    && (forall x :: 0 <= x < f.size ==> CoveredOnce(f.chunks, x))
  }

  predicate Inside(f: FileEntry, i: nat)
    requires i < |f.chunks|
  {
    0 <= f.chunks[i].offset && f.chunks[i].offset + f.chunks[i].len <= f.size
  }

  ghost predicate CoveredOnce(cs: seq<ChunkRef>, x: int) {
    exists i :: 0 <= i < |cs| && Covers(cs[i], x) && forall j :: 0 <= j < |cs| && Covers(cs[j], x) ==> j == i
  }

  predicate Positive(cs: seq<ChunkRef>) {
    forall i :: 0 <= i < |cs| ==> cs[i].len > 0
  }

  lemma {:induction false} SumGrows(cs: seq<ChunkRef>, i: nat, j: nat)
    requires i <= j <= |cs| && Positive(cs)
    ensures Sum(cs, i) <= Sum(cs, j) && Sum(cs, i) >= 0
  {
    if i < j {
      SumGrows(cs, i, j - 1);
    } else if i > 0 {
      SumGrows(cs, i - 1, i - 1);
    }
  }

  /** While the true sum stays below 2^63 nothing wraps. */
  lemma {:induction false} NoWrap(cs: seq<ChunkRef>, n: nat)
    requires n <= |cs| && Positive(cs) && Sum(cs, |cs|) < TWO63
    ensures Sum64(cs, n) == Sum(cs, n)
  {
    SumGrows(cs, n, |cs|);
    if n > 0 { NoWrap(cs, n - 1); }
  }

  /** The chunk in whose range `x` falls. */
  lemma {:induction false} Locate(cs: seq<ChunkRef>, n: nat, x: int) returns (i: nat)
    requires n <= |cs| && 0 <= x < Sum(cs, n)
    ensures i < n && Sum(cs, i) <= x < Sum(cs, i + 1)
  {
    if x < Sum(cs, n - 1) { i := Locate(cs, n - 1, x); } else { i := n - 1; }
  }

  /** Every chunk starts where the ones before it end. */
  ghost predicate Stacked(cs: seq<ChunkRef>) {
    Positive(cs) && forall i :: 0 <= i < |cs| ==> cs[i].offset == Sum(cs, i)
  }

  lemma FitsStack(safe: string -> bool, f: FileEntry)
    requires FileOK(safe, f) && Sum(f.chunks, |f.chunks|) < TWO63
    ensures Stacked(f.chunks) && Sum(f.chunks, |f.chunks|) == f.size
  {
    var cs, n := f.chunks, |f.chunks|;
    forall i | 0 <= i < n
      ensures cs[i].len > 0
    {
      assert ChunkFits(cs, i);
    }
    forall i | 0 <= i < n
      ensures cs[i].offset == Sum(cs, i)
    {
      assert ChunkFits(cs, i);
      NoWrap(cs, i);
    }
    NoWrap(cs, n);
  }

  lemma StackCoversOnce(cs: seq<ChunkRef>, x: int)
    requires Stacked(cs) && 0 <= x < Sum(cs, |cs|)
    ensures CoveredOnce(cs, x)
  {
    var i := Locate(cs, |cs|, x);
    forall j | 0 <= j < |cs| && Covers(cs[j], x)
      ensures j == i
    {
      assert Sum(cs, j) <= x < Sum(cs, j + 1);
      if j < i { SumGrows(cs, j + 1, i); }
      if i < j { SumGrows(cs, i + 1, j); }
    }
    assert Covers(cs[i], x);
  }

  lemma FitsTile(safe: string -> bool, f: FileEntry)
    requires FileOK(safe, f) && Sum(f.chunks, |f.chunks|) < TWO63
    ensures Tiles(f)
  {
    FitsStack(safe, f);
    forall i | 0 <= i < |f.chunks|
      ensures Inside(f, i)
    {
      SumGrows(f.chunks, i, i);
      SumGrows(f.chunks, i + 1, |f.chunks|);
    }
    forall x | 0 <= x < f.size
      ensures CoveredOnce(f.chunks, x)
    {
      StackCoversOnce(f.chunks, x);
    }
  }

  lemma {:induction false} TileDoesNotWrap(safe: string -> bool, f: FileEntry, n: nat)
    requires FileOK(safe, f) && Typed(f) && Tiles(f) && n <= |f.chunks|
    ensures Sum(f.chunks, n) == Sum64(f.chunks, n) <= f.size
  {
    if n > 0 {
      TileDoesNotWrap(safe, f, n - 1);
      assert ChunkFits(f.chunks, n - 1) && Inside(f, n - 1);
    }
  }

  /** An accepted file is tiled by its chunks exactly when the lengths really sum below 2^63. */
  lemma AcceptedTilesIffNoOverflow(safe: string -> bool, f: FileEntry)
    requires FileOK(safe, f) && Typed(f)
    ensures Tiles(f) <==> Sum(f.chunks, |f.chunks|) < TWO63
  {
    if Sum(f.chunks, |f.chunks|) < TWO63 { FitsTile(safe, f); }
    if Tiles(f) { TileDoesNotWrap(safe, f, |f.chunks|); }
  }

  /** Three chunks whose lengths sum to 2^64 pass as an empty file. */
  lemma OverflowIsAccepted(safe: string -> bool, path: string, h: Hash)
    requires safe(path) && path != "" && !h.ZeroHash?
    ensures var f := FileEntry(path, 0, 0, [ChunkRef(h, TWO63 - 1, 0), ChunkRef(h, TWO63 - 1, TWO63 - 1), ChunkRef(h, 2, -2)]);
            Typed(f) && FileOK(safe, f) && !Tiles(f)
  {
    var cs := [ChunkRef(h, TWO63 - 1, 0), ChunkRef(h, TWO63 - 1, TWO63 - 1), ChunkRef(h, 2, -2)];
    var f := FileEntry(path, 0, 0, cs);
    assert Sum64(cs, 0) == 0;
    assert Sum64(cs, 1) == TWO63 - 1;
    assert Sum64(cs, 2) == -2;
    assert Sum64(cs, 3) == 0;
    assert ChunkFits(cs, 0) && ChunkFits(cs, 1) && ChunkFits(cs, 2);
    assert !Inside(f, 0);
  }

  // ---- identities ----

  const NUL: char := '\0'

  function Digit(d: nat): char
    requires d < 10
  {
    "0123456789"[d]
  }

  function Decimal(n: nat): (s: string)
    ensures s != "" && NUL !in s
  {
    if n < 10 then [Digit(n)] else Decimal(n / 10) + [Digit(n % 10)]
  }

  function Value(s: string): int {
    if s == "" then 0 else 10 * Value(Front(s)) + (Last(s) as int - '0' as int)
  }

  lemma {:induction false} DecimalRoundTrip(n: nat)
    ensures Value(Decimal(n)) == n
  {
    if n < 10 {
      assert Front([Digit(n)]) == "";
    } else {
      DecimalRoundTrip(n / 10);
      assert Front(Decimal(n)) == Decimal(n / 10);
    }
  }

  /** fileIdentity, and the same key for a directory. */
  function Identity(tablespace: nat, path: string): string {
    Decimal(tablespace) + [NUL] + path
  }

  lemma {:induction false} SplitAtNul(a: string, x: string, b: string, y: string)
    requires NUL !in a && NUL !in b && a + [NUL] + x == b + [NUL] + y
    ensures a == b && x == y
  {
    var s, t := a + [NUL] + x, b + [NUL] + y;
    if a == "" || b == "" {
      assert s[0] == t[0];
      assert s[1..] == t[1..];
      assert a == "" ==> s[1..] == x;
      assert b == "" ==> t[1..] == y;
    } else {
      assert s[0] == a[0] && t[0] == b[0];
      assert s[1..] == a[1..] + [NUL] + x && t[1..] == b[1..] + [NUL] + y;
      SplitAtNul(a[1..], x, b[1..], y);
      assert a == [a[0]] + a[1..] && b == [b[0]] + b[1..];
    }
  }

  /** The key names the tablespace and the path, whatever characters the path has. */
  lemma IdentityInjective(ts: nat, p: string, ts': nat, p': string)
    requires Identity(ts, p) == Identity(ts', p')
    ensures ts == ts' && p == p'
  {
    SplitAtNul(Decimal(ts), p, Decimal(ts'), p');
    DecimalRoundTrip(ts);
    DecimalRoundTrip(ts');
  }

  // ---- the file list ----

  function FileKey(f: FileEntry): string {
    Identity(f.tablespace, f.path)
  }

  function DirKey(d: DirEntry): string {
    Identity(d.tablespace, d.path)
  }

  /** Every file is sound and no two have the same key. */
  predicate FilesOK(safe: string -> bool, fs: seq<FileEntry>) {
    && (forall i :: 0 <= i < |fs| ==> FileOK(safe, fs[i]))
    && (forall i, j :: 0 <= i < j < |fs| ==> FileKey(fs[i]) != FileKey(fs[j]))
  }

  predicate DirsOK(safe: string -> bool, ds: seq<DirEntry>, files: set<string>) {
    && (forall i :: 0 <= i < |ds| ==> ds[i].path != "" && safe(ds[i].path) && DirKey(ds[i]) !in files)
    && (forall i, j :: 0 <= i < j < |ds| ==> DirKey(ds[i]) != DirKey(ds[j]))
  }

  /** The loop of Validate; `keys` are the identities of the files. */
  method ValidateFiles(safe: string -> bool, fs: seq<FileEntry>) returns (ok: bool, keys: set<string>)
    requires forall f :: f in fs ==> Typed(f)
    ensures ok <==> FilesOK(safe, fs)
    ensures ok ==> keys == set f | f in fs :: FileKey(f)
  {
    keys := {};
    var i := 0;
    while i < |fs|
      invariant 0 <= i <= |fs|
      invariant FilesOK(safe, fs[..i])
      invariant keys == set f | f in fs[..i] :: FileKey(f)
    {
      assert fs[..i + 1] == fs[..i] + [fs[i]];
      var fine := ValidateFile(safe, fs[i]);
      if !fine {
        return false, {};
      }
      var key := FileKey(fs[i]);
      if key in keys {
        var f :| f in fs[..i] && FileKey(f) == key;
        return false, {};
      }
      keys := keys + {key};
      i := i + 1;
    }
    assert fs[..i] == fs;
    ok := true;
  }

  /** The directory loop of validateTail. */
  method ValidateDirs(safe: string -> bool, ds: seq<DirEntry>, files: set<string>) returns (ok: bool)
    ensures ok <==> DirsOK(safe, ds, files)
  {
    var seen: set<string> := {};
    var i := 0;
    while i < |ds|
      invariant 0 <= i <= |ds|
      invariant DirsOK(safe, ds[..i], files)
      invariant seen == set d | d in ds[..i] :: DirKey(d)
    {
      assert ds[..i + 1] == ds[..i] + [ds[i]];
      var key := DirKey(ds[i]);
      if ds[i].path == "" {
        return false;
      }
      if key in seen {
        var d :| d in ds[..i] && DirKey(d) == key;
        return false;
      }
      if !safe(ds[i].path) || key in files {
        return false;
      }
      seen := seen + {key};
      i := i + 1;
    }
    assert ds[..i] == ds;
    ok := true;
  }

  /** The file and directory part of Validate. */
  method Validate(safe: string -> bool, fs: seq<FileEntry>, ds: seq<DirEntry>) returns (ok: bool)
    requires forall f :: f in fs ==> Typed(f)
    ensures ok <==> FilesOK(safe, fs) && DirsOK(safe, ds, set f | f in fs :: FileKey(f))
  {
    var keys;
    ok, keys := ValidateFiles(safe, fs);
    if ok { ok := ValidateDirs(safe, ds, keys); }
  }

  /** What acceptance means: distinct (tablespace, path) pairs across files and across directories, no directory in
      place of a file, and every file tiled by its chunks as long as its lengths sum below 2^63. */
  lemma AcceptedIsWellFormed(safe: string -> bool, fs: seq<FileEntry>, ds: seq<DirEntry>)
    requires FilesOK(safe, fs) && DirsOK(safe, ds, set f | f in fs :: FileKey(f))
    requires forall f :: f in fs ==> Typed(f)
    ensures forall i, j :: 0 <= i < j < |fs| ==> (fs[i].tablespace, fs[i].path) != (fs[j].tablespace, fs[j].path)
    ensures forall i, j :: 0 <= i < j < |ds| ==> (ds[i].tablespace, ds[i].path) != (ds[j].tablespace, ds[j].path)
    ensures forall f, d :: f in fs && d in ds ==> (f.tablespace, f.path) != (d.tablespace, d.path)
    ensures forall f :: f in fs ==> (Tiles(f) <==> Sum(f.chunks, |f.chunks|) < TWO63)
  {
    forall f, d | f in fs && d in ds
      ensures (f.tablespace, f.path) != (d.tablespace, d.path)
    {
      assert DirKey(d) != FileKey(f);
    }
    forall f | f in fs
      ensures Tiles(f) <==> Sum(f.chunks, |f.chunks|) < TWO63
    {
      AcceptedTilesIffNoOverflow(safe, f);
    }
    assert forall i, j :: 0 <= i < j < |fs| ==> FileKey(fs[i]) != FileKey(fs[j]);
    assert forall i, j :: 0 <= i < j < |ds| ==> DirKey(ds[i]) != DirKey(ds[j]);
  }

  /** Acceptance refuses nothing else: sound files and directories with distinct pairs pass. */
  lemma DistinctIsAccepted(safe: string -> bool, fs: seq<FileEntry>, ds: seq<DirEntry>)
    requires forall i :: 0 <= i < |fs| ==> FileOK(safe, fs[i])
    requires forall i :: 0 <= i < |ds| ==> ds[i].path != "" && safe(ds[i].path)
    requires forall i, j :: 0 <= i < j < |fs| ==> (fs[i].tablespace, fs[i].path) != (fs[j].tablespace, fs[j].path)
    requires forall i, j :: 0 <= i < j < |ds| ==> (ds[i].tablespace, ds[i].path) != (ds[j].tablespace, ds[j].path)
    requires forall f, d :: f in fs && d in ds ==> (f.tablespace, f.path) != (d.tablespace, d.path)
    ensures FilesOK(safe, fs) && DirsOK(safe, ds, set f | f in fs :: FileKey(f))
  {
    forall i, j | 0 <= i < j < |fs|
      ensures FileKey(fs[i]) != FileKey(fs[j])
    {
      if FileKey(fs[i]) == FileKey(fs[j]) { IdentityInjective(fs[i].tablespace, fs[i].path, fs[j].tablespace, fs[j].path); }
    }
    forall i, j | 0 <= i < j < |ds|
      ensures DirKey(ds[i]) != DirKey(ds[j])
    {
      if DirKey(ds[i]) == DirKey(ds[j]) { IdentityInjective(ds[i].tablespace, ds[i].path, ds[j].tablespace, ds[j].path); }
    }
    forall f, d | f in fs && d in ds
      ensures FileKey(f) != DirKey(d)
    {
      if FileKey(f) == DirKey(d) { IdentityInjective(f.tablespace, f.path, d.tablespace, d.path); }
    }
  }
}
