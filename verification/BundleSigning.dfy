/** The byte string that a bundle signature covers, and what a valid signature says about the archive. */
module BundleSigning {
  import opened Common
  import opened Bytes

  const FOUR: nat := 4
  const EIGHT: nat := 8

  datatype File = File(name: seq<byte>, body: seq<byte>)

  /** appendU32BE of uint32(len): only the low 32 bits of the length. */
  function U32(n: nat): (b: seq<byte>)
    ensures |b| == 4
  {
    BigEndian(n, FOUR)
  }

  function U64(n: nat): (b: seq<byte>)
    ensures |b| == 8
  {
    BigEndian(n, EIGHT)
  }

  function OneFile(f: File): seq<byte> {
    U32(|f.name|) + f.name + U64(|f.body|) + f.body
  }

  function AllFiles(files: seq<File>): seq<byte> {
    if files == [] then [] else OneFile(files[0]) + AllFiles(files[1..])
  }

  function SignedBytes(files: seq<File>): seq<byte> {
    U64(|files|) + AllFiles(files)
  }

  lemma {:induction false} AllFilesSnoc(files: seq<File>, f: File)
    ensures AllFiles(files + [f]) == AllFiles(files) + OneFile(f)
  {
    if files == [] {
      assert files + [f] == [f] && [f][1..] == [];
    } else {
      assert (files + [f])[1..] == files[1..] + [f];
      AllFilesSnoc(files[1..], f);
    }
  }

  /** canonicalBundleBytes */
  method CanonicalBytes(files: seq<File>) returns (out: seq<byte>)
    ensures out == SignedBytes(files)
  {
    out := U64(|files|);
    var i := 0;
    while i < |files|
      invariant 0 <= i <= |files|
      invariant out == U64(|files|) + AllFiles(files[..i])
    {
      ghost var before := out;
      out := out + U32(|files[i].name|);
      out := out + files[i].name;
      out := out + U64(|files[i].body|);
      out := out + files[i].body;
      assert out == before + OneFile(files[i]);
      AllFilesSnoc(files[..i], files[i]);
      assert files[..i + 1] == files[..i] + [files[i]];
      i := i + 1;
    }
    assert files[..i] == files;
  }

  /** Lengths that their fields can hold. */
  predicate Encodable(f: File) {
    |f.name| < 0x1_0000_0000 && |f.body| < 0x1_0000_0000_0000_0000
  }

  predicate AllEncodable(files: seq<File>) {
    |files| < 0x1_0000_0000_0000_0000 && forall f :: f in files ==> Encodable(f)
  }

  lemma FixedInjective(a: nat, b: nat, w: nat)
    requires a < Pow256(w) && b < Pow256(w) && BigEndian(a, w) == BigEndian(b, w)
    ensures a == b
  {
    BigEndianRoundTrip(a, w);
    BigEndianRoundTrip(b, w);
  }

  lemma U32Injective(a: nat, b: nat)
    requires a < 0x1_0000_0000 && b < 0x1_0000_0000 && U32(a) == U32(b)
    ensures a == b
  {
    Pow256Four();
    FixedInjective(a, b, FOUR);
  }

  lemma U64Injective(a: nat, b: nat)
    requires a < 0x1_0000_0000_0000_0000 && b < 0x1_0000_0000_0000_0000 && U64(a) == U64(b)
    ensures a == b
  {
    Pow256Eight();
    FixedInjective(a, b, EIGHT);
  }

  lemma SplitEqual(a: seq<byte>, x: seq<byte>, b: seq<byte>, y: seq<byte>)
    requires |a| == |b| && a + x == b + y
    ensures a == b && x == y
  {
    assert a == (a + x)[..|a|] && x == (a + x)[|a|..];
    assert b == (b + y)[..|b|] && y == (b + y)[|b|..];
  }

  lemma Regroup(a: seq<byte>, b: seq<byte>, c: seq<byte>, d: seq<byte>, x: seq<byte>)
    ensures a + b + c + d + x == (a + b) + (c + (d + x)) == a + (b + (c + (d + x)))
  {
  }

  /** A length-prefixed part is recovered from the front of a byte string. */
  lemma PartAtFront(len: nat -> seq<byte>, p: seq<byte>, x: seq<byte>, q: seq<byte>, y: seq<byte>)
    requires |len(|p|)| == |len(|q|)| && len(|p|) + (p + x) == len(|q|) + (q + y)
    requires len(|p|) == len(|q|) ==> |p| == |q|
    ensures p == q && x == y
  {
    SplitEqual(len(|p|), p + x, len(|q|), q + y);
    SplitEqual(p, x, q, y);
  }

  /** A file is recovered from the front of a byte string. */
  lemma FileAtFront(f: File, x: seq<byte>, g: File, y: seq<byte>)
    requires Encodable(f) && Encodable(g) && OneFile(f) + x == OneFile(g) + y
    ensures f == g && x == y
  {
    Regroup(U32(|f.name|), f.name, U64(|f.body|), f.body, x);
    Regroup(U32(|g.name|), g.name, U64(|g.body|), g.body, y);
    var f', g' := U64(|f.body|) + (f.body + x), U64(|g.body|) + (g.body + y);
    if U32(|f.name|) == U32(|g.name|) { U32Injective(|f.name|, |g.name|); }
    PartAtFront(U32, f.name, f', g.name, g');
    if U64(|f.body|) == U64(|g.body|) { U64Injective(|f.body|, |g.body|); }
    PartAtFront(U64, f.body, x, g.body, y);
  }

  lemma {:induction false} FilesInjective(fs: seq<File>, gs: seq<File>)
    requires |fs| == |gs| && AllFiles(fs) == AllFiles(gs)
    requires forall f :: f in fs || f in gs ==> Encodable(f)
    ensures fs == gs
  {
    if fs != [] {
      FileAtFront(fs[0], AllFiles(fs[1..]), gs[0], AllFiles(gs[1..]));
      FilesInjective(fs[1..], gs[1..]);
      assert fs == [fs[0]] + fs[1..] && gs == [gs[0]] + gs[1..];
    }
  }

  /** The signed bytes determine the list of files: names, contents and order. */
  lemma CanonicalInjective(fs: seq<File>, gs: seq<File>)
    requires AllEncodable(fs) && AllEncodable(gs) && SignedBytes(fs) == SignedBytes(gs)
    ensures fs == gs
  {
    SplitEqual(U64(|fs|), AllFiles(fs), U64(|gs|), AllFiles(gs));
    U64Injective(|fs|, |gs|);
    FilesInjective(fs, gs);
  }

  /** The bound on names is sharp: any file with a name of 2^32 bytes that starts with a suitable length encodes
      like a file without a name. */
  lemma LongNameCollides(rest: seq<byte>, body: seq<byte>)
    requires |rest| + 8 == 0x1_0000_0000 && |body| < 0x1_0000_0000
    ensures var name := U64(|rest| + 8 + |body|) + rest;
            && |name| == 0x1_0000_0000
            && SignedBytes([File(name, body)]) == SignedBytes([File([], rest + U64(|body|) + body)])
  {
    var long, short := File(U64(|rest| + 8 + |body|) + rest, body), File([], rest + U64(|body|) + body);
    assert OneFile(long) == U32(0) + long.name + U64(|body|) + body;
    assert OneFile(short) == U32(0) + [] + U64(|short.body|) + short.body;
    assert OneFile(long) == U32(0) + U64(|short.body|) + short.body;
    assert OneFile(short) == U32(0) + U64(|short.body|) + short.body;
    assert [long][1..] == [] && [short][1..] == [];
  }

  // ---- signatures ----

  type Key = seq<byte>

  /** Ed25519 seen from outside: `valid` accepts only what the holder of the key has signed. */
  ghost predicate Unforgeable(valid: (Key, seq<byte>, seq<byte>) -> bool, signed: set<(Key, seq<byte>)>) {
    forall k, m, sig :: valid(k, m, sig) ==> (k, m) in signed
  }

  /** Everything that `k` ever signed is the canonical form of one of its exports. */
  ghost predicate SignsOnly(signed: set<(Key, seq<byte>)>, k: Key, exports: set<seq<File>>) {
    && (forall m :: (k, m) in signed ==> exists fs :: fs in exports && m == SignedBytes(fs))
    && (forall fs :: fs in exports ==> AllEncodable(fs))
  }

  /** The declared files in order, or the absence of one. */
  function Resolve(archive: map<seq<byte>, seq<byte>>, names: seq<seq<byte>>): (r: Option<seq<File>>)
    ensures r.Some? <==> forall n :: n in names ==> n in archive
    ensures r.Some? ==> |r.value| == |names|
                        && forall i :: 0 <= i < |names| ==> names[i] in archive && r.value[i] == File(names[i], archive[names[i]])
  {
    if names == [] then Some([])
    else
      var front := Resolve(archive, Front(names));
      assert names == Front(names) + [Last(names)];
      if front.None? || Last(names) !in archive then None
      else Some(front.value + [File(Last(names), archive[Last(names)])])
  }

  /** Whatever the archive holds: when its declared files verify under a key that signed genuine exports only, the
      archive contains one genuine export's files, in that order and with those contents, and no other export fits. */
  lemma VerifiedIsGenuine(valid: (Key, seq<byte>, seq<byte>) -> bool, signed: set<(Key, seq<byte>)>, k: Key,
                          exports: set<seq<File>>, archive: map<seq<byte>, seq<byte>>, names: seq<seq<byte>>,
                          sig: seq<byte>)
    requires Unforgeable(valid, signed) && SignsOnly(signed, k, exports)
    requires Resolve(archive, names).Some? && AllEncodable(Resolve(archive, names).value)
    requires valid(k, SignedBytes(Resolve(archive, names).value), sig)
    ensures Resolve(archive, names).value in exports
    ensures forall f :: f in Resolve(archive, names).value ==> f.name in archive && archive[f.name] == f.body
    ensures forall fs :: fs in exports && SignedBytes(fs) == SignedBytes(Resolve(archive, names).value) ==>
              fs == Resolve(archive, names).value
  {
    var files := Resolve(archive, names).value;
    assert (k, SignedBytes(files)) in signed;
    var fs :| fs in exports && SignedBytes(files) == SignedBytes(fs);
    CanonicalInjective(files, fs);
    forall g | g in exports && SignedBytes(g) == SignedBytes(files)
      ensures g == files
    {
      CanonicalInjective(g, files);
    }
  }
}
