/** One pass over each side's files and chunks. */
module CompareScan {
  import opened Common
  import opened Sorting
  import opened TopDeltas
  import opened Compare

  datatype Chunk = Chunk(hash: string, len: int, offset: int)

  datatype FileEntry = FileEntry(path: string, size: int, chunks: seq<Chunk>)

  // ---- sums over sets ----

  ghost function Sum(f: string -> int, s: set<string>): int {
    if s == {} then 0
    else
      var x :| x in s;
      f(x) + Sum(f, s - {x})
  }

  lemma {:induction false} SumAdd(f: string -> int, s: set<string>, x: string)
    requires x !in s
    ensures Sum(f, s + {x}) == Sum(f, s) + f(x)
  {
    var t := s + {x};
    var y :| y in t && Sum(f, t) == f(y) + Sum(f, t - {y});
    if y == x {
      assert t - {y} == s;
    } else {
      assert t - {y} == (s - {y}) + {x};
      SumAdd(f, s - {y}, x);
      SumAdd(f, s - {y}, y);
      assert (s - {y}) + {y} == s;
    }
  }

  lemma {:induction false} SumDisjoint(f: string -> int, s: set<string>, t: set<string>)
    requires s !! t
    ensures Sum(f, s + t) == Sum(f, s) + Sum(f, t)
  {
    if t == {} {
      assert s + t == s;
    } else {
      var x :| x in t;
      SumDisjoint(f, s, t - {x});
      SumAdd(f, s + (t - {x}), x);
      SumAdd(f, t - {x}, x);
      assert s + (t - {x}) + {x} == s + t && (t - {x}) + {x} == t;
    }
  }

  // ---- scanSide ----

  /** Chunks seen so far, how many bytes they have, and the same for those that the other side has too. */
  datatype Tally = Tally(set_: set<string>, count: nat, bytes: int, shared: nat, sharedBytes: int)

  function Hashes(cs: seq<Chunk>): set<string> {
    set c | c in cs :: c.hash
  }

  /** Every chunk has the length that its hash determines. */
  predicate LengthsFit(lenOf: string -> int, cs: seq<Chunk>) {
    forall c :: c in cs ==> c.len == lenOf(c.hash)
  }

  ghost predicate TallyOK(t: Tally, lenOf: string -> int, other: set<string>) {
    && t.count == |t.set_| && t.shared == |t.set_ * other|
    && t.bytes == Sum(lenOf, t.set_) && t.sharedBytes == Sum(lenOf, t.set_ * other)
  }

  /** The tally after one chunk more. */
  function Tallied(t: Tally, c: Chunk, other: set<string>): Tally {
    if c.hash in t.set_ then t
    else
      var added := t.(set_ := t.set_ + {c.hash}, count := t.count + 1, bytes := t.bytes + c.len);
      if c.hash in other then added.(shared := t.shared + 1, sharedBytes := t.sharedBytes + c.len) else added
  }

  lemma NewShared(s: set<string>, other: set<string>, h: string)
    ensures h in other ==> (s + {h}) * other == s * other + {h}
    ensures h !in other ==> (s + {h}) * other == s * other
  {
  }

  lemma TallyStays(t: Tally, c: Chunk, other: set<string>, lenOf: string -> int)
    requires TallyOK(t, lenOf, other) && c.len == lenOf(c.hash)
    ensures TallyOK(Tallied(t, c, other), lenOf, other) && Tallied(t, c, other).set_ == t.set_ + {c.hash}
  {
    if c.hash !in t.set_ {
      SumAdd(lenOf, t.set_, c.hash);
      NewShared(t.set_, other, c.hash);
      if c.hash in other { SumAdd(lenOf, t.set_ * other, c.hash); }
    }
  }

  lemma HashesSnoc(s: set<string>, cs: seq<Chunk>, i: nat)
    requires i < |cs|
    ensures s + Hashes(cs[..i + 1]) == (s + Hashes(cs[..i])) + {cs[i].hash}
  {
    assert cs[..i + 1] == cs[..i] + [cs[i]];
  }

  method CountChunks(t: Tally, cs: seq<Chunk>, other: set<string>, ghost lenOf: string -> int) returns (t': Tally)
    requires TallyOK(t, lenOf, other) && LengthsFit(lenOf, cs)
    ensures TallyOK(t', lenOf, other) && t'.set_ == t.set_ + Hashes(cs)
  {
    t' := t;
    ghost var want := t.set_;
    assert t.set_ + Hashes(cs[..0]) == want;
    var i := 0;
    while i < |cs|
      invariant 0 <= i <= |cs| && want == t.set_ + Hashes(cs[..i])
      invariant TallyOK(t', lenOf, other) && t'.set_ == want
    {
      HashesSnoc(t.set_, cs, i);
      TallyStays(t', cs[i], other, lenOf);
      t' := Tallied(t', cs[i], other);
      want := want + {cs[i].hash};
      i := i + 1;
    }
    assert cs[..i] == cs;
  }

  function AllHashes(files: seq<FileEntry>): set<string> {
    if files == [] then {} else AllHashes(Front(files)) + Hashes(Last(files).chunks)
  }

  function LogicalBytes(files: seq<FileEntry>): int {
    if files == [] then 0 else LogicalBytes(Front(files)) + Last(files).size
  }

  /** The file signature records handed to the sorter. */
  function Records(digest: seq<Chunk> -> string, files: seq<FileEntry>): seq<Rec> {
    if files == [] then []
    else Records(digest, Front(files)) + [Rec(Last(files).path, Sig(Last(files).size, digest(Last(files).chunks)))]
  }

  datatype Side = Side(tally: Tally, logical: int, index: seq<Rec>)

  method ScanSide(digest: seq<Chunk> -> string, files: seq<FileEntry>, other: set<string>, ghost lenOf: string -> int)
    returns (s: Side)
    requires forall f :: f in files ==> LengthsFit(lenOf, f.chunks)
    ensures TallyOK(s.tally, lenOf, other) && s.tally.set_ == AllHashes(files)
    ensures s.logical == LogicalBytes(files) && s.index == Records(digest, files)
  {
    var t := Tally({}, 0, 0, 0, 0);
    assert t.set_ * other == {};
    var logical, index := 0, [];
    var i := 0;
    while i < |files|
      invariant 0 <= i <= |files|
      invariant TallyOK(t, lenOf, other) && t.set_ == AllHashes(files[..i])
      invariant logical == LogicalBytes(files[..i]) && index == Records(digest, files[..i])
    {
      var f := files[i];
      assert Front(files[..i + 1]) == files[..i];
      logical := logical + f.size;
      t := CountChunks(t, f.chunks, other, lenOf);
      index := index + [Rec(f.path, Sig(f.size, digest(f.chunks)))];
      i := i + 1;
    }
    assert files[..i] == files;
    s := Side(t, logical, index);
  }

  // ---- the chunk diff ----

  datatype ChunkCounts = ChunkCounts(shared: int, aOnly: int, bOnly: int, sharedBytes: int, aOnlyBytes: int, bOnlyBytes: int)

  /** The chunk diff as the source derives it from B's scan. */
  function Derive(a: Tally, b: Tally): ChunkCounts {
    ChunkCounts(b.shared, a.count - b.shared, b.count - b.shared,
                b.sharedBytes, a.bytes - b.sharedBytes, b.bytes - b.sharedBytes)
  }

  lemma Partition(f: string -> int, s: set<string>, t: set<string>)
    ensures |s| == |s - t| + |s * t| && Sum(f, s) == Sum(f, s - t) + Sum(f, s * t)
  {
    assert s == (s - t) + (s * t);
    SumDisjoint(f, s - t, s * t);
  }

  /** Counts and bytes derived by subtraction are those of the set differences. */
  lemma DerivedIsExact(a: Tally, b: Tally, lenOf: string -> int)
    requires TallyOK(a, lenOf, {}) && TallyOK(b, lenOf, a.set_)
    ensures var c := Derive(a, b);
            && c.shared == |a.set_ * b.set_| && c.aOnly == |a.set_ - b.set_| && c.bOnly == |b.set_ - a.set_|
            && c.sharedBytes == Sum(lenOf, a.set_ * b.set_)
            && c.aOnlyBytes == Sum(lenOf, a.set_ - b.set_) && c.bOnlyBytes == Sum(lenOf, b.set_ - a.set_)
  {
    assert b.set_ * a.set_ == a.set_ * b.set_;
    Partition(lenOf, a.set_, b.set_);
    Partition(lenOf, b.set_, a.set_);
  }
}
