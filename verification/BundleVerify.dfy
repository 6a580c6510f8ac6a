/** The verification of a whole evidence bundle, from the archive's files to the verdict. */
module BundleVerify {
  import opened Common
  import opened Bytes
  import opened AuditEvents
  import opened BundleSigning
  import opened BundleEvents

  type Name = seq<byte>
  type Archive = map<Name, seq<byte>>

  datatype Manifest = Manifest(schema: string, algorithm: string, fingerprint: string, signedFiles: seq<Name>,
                               declared: Declared)

  /** The parsers and the fingerprint function, and the names of the files with a role. */
  datatype Format = Format(
    schema: string, algorithm: string, bundleJson: Name, publicKey: Name, signature: Name, eventsFile: Name,
    parseManifest: seq<byte> -> Option<Manifest>, parseKey: seq<byte> -> Option<Key>,
    parseEvents: seq<byte> -> Option<seq<Event>>, fingerprint: Key -> string)

  type Valid = (Key, seq<byte>, seq<byte>) -> bool

  datatype Result =
    | Verified(integrity: Integrity)
    | Untrusted
    | Malformed
    | BadSignature
    | WrongSigner
    | BadEvents

  /** The manifest and key that the archive carries, when everything needed is there and readable. */
  predicate WellFormed(f: Format, a: Archive) {
    && f.bundleJson in a && f.publicKey in a && f.signature in a
    && f.parseManifest(a[f.bundleJson]).Some? && f.parseKey(a[f.publicKey]).Some?
    && var m := f.parseManifest(a[f.bundleJson]).value;
       m.schema == f.schema && m.algorithm == f.algorithm && Resolve(a, m.signedFiles).Some?
  }

  function ManifestOf(f: Format, a: Archive): Manifest
    requires WellFormed(f, a)
  {
    f.parseManifest(a[f.bundleJson]).value
  }

  function SignerOf(f: Format, a: Archive): Key
    requires WellFormed(f, a)
  {
    f.parseKey(a[f.publicKey]).value
  }

  function SignedFiles(f: Format, a: Archive): seq<File>
    requires WellFormed(f, a)
  {
    Resolve(a, ManifestOf(f, a).signedFiles).value
  }

  /** The loop that rebuilds the signed list in the declared order. */
  method ResolveFiles(a: Archive, names: seq<Name>) returns (r: Option<seq<File>>)
    ensures r == Resolve(a, names)
  {
    var files := [];
    var i := 0;
    while i < |names|
      invariant 0 <= i <= |names|
      invariant |files| == i && forall j :: 0 <= j < i ==> names[j] in a && files[j] == File(names[j], a[names[j]])
    {
      if names[i] !in a {
        return None;
      }
      files := files + [File(names[i], a[names[i]])];
      i := i + 1;
    }
    assert Resolve(a, names).Some? && Resolve(a, names).value == files;
    r := Some(files);
  }

  /** The events file is absent and none are declared, or it parses and its events pass. */
  ghost predicate EventsPass(h: HashFn, f: Format, a: Archive, d: Declared) {
    if f.eventsFile !in a then d.eventCount == 0
    else f.parseEvents(a[f.eventsFile]).Some? && SegmentPasses(h, f.parseEvents(a[f.eventsFile]).value, d)
  }

  ghost predicate SegmentPasses(h: HashFn, events: seq<Event>, d: Declared) {
    && d.eventCount == |events| && HashesHold(h, events) && NoBreak(ShardKey, events)
    && (ReachesHead(events, d) ==> Last(events).hash == d.headHash)
  }

  /** The event checks; an archive without events must not declare any. */
  method CheckEvents(h: HashFn, f: Format, a: Archive, d: Declared) returns (r: Option<Integrity>)
    ensures r.Some? <==> EventsPass(h, f, a, d)
    ensures r.Some? ==> r.value.checked == d.eventCount
    ensures r.Some? && f.eventsFile in a ==>
              var events := f.parseEvents(a[f.eventsFile]).value;
              && (r.value.linkage <==> AllConsecutive(ShardKey, events))
              && (r.value.headMatched <==> ReachesHead(events, d))
  {
    if f.eventsFile !in a {
      return if d.eventCount != 0 then None else Some(Integrity(0, true, 0, false));
    }
    var events := f.parseEvents(a[f.eventsFile]);
    if events.None? {
      return None;
    }
    var v := VerifyEvents(h, ShardKey, events.value, d);
    r := if v.Accepted? then Some(v.integrity) else None;
  }

  /** Everything that is checked before trust. */
  ghost predicate Consistent(h: HashFn, f: Format, valid: Valid, a: Archive) {
    && WellFormed(f, a) && valid(SignerOf(f, a), SignedBytes(SignedFiles(f, a)), a[f.signature])
    && SignerNamed(f, a) && EventsPass(h, f, a, ManifestOf(f, a).declared)
  }

  /** The recorded fingerprint, if there is one, is that of the key that was used. */
  predicate SignerNamed(f: Format, a: Archive)
    requires WellFormed(f, a)
  {
    ManifestOf(f, a).fingerprint == "" || ManifestOf(f, a).fingerprint == f.fingerprint(SignerOf(f, a))
  }

  /** VerifyBundleWithOptions; `trusts` is absent when no trust set was given. */
  method VerifyBundle(h: HashFn, f: Format, valid: Valid, trusts: Option<Key -> bool>, a: Archive) returns (r: Result)
    ensures r.Malformed? <==> !WellFormed(f, a)
    ensures r.BadSignature? <==>
              WellFormed(f, a) && !valid(SignerOf(f, a), SignedBytes(SignedFiles(f, a)), a[f.signature])
    ensures r.WrongSigner? <==>
              && WellFormed(f, a) && valid(SignerOf(f, a), SignedBytes(SignedFiles(f, a)), a[f.signature])
              && !SignerNamed(f, a)
    ensures r.Verified? <==> Consistent(h, f, valid, a) && (trusts.Some? ==> trusts.value(SignerOf(f, a)))
    ensures r.Untrusted? <==> Consistent(h, f, valid, a) && trusts.Some? && !trusts.value(SignerOf(f, a))
    ensures r.Verified? && f.eventsFile in a ==>
              (r.integrity.linkage <==> AllConsecutive(ShardKey, f.parseEvents(a[f.eventsFile]).value))
  {
    if f.bundleJson !in a {
      return Malformed;
    }
    var manifest := f.parseManifest(a[f.bundleJson]);
    if manifest.None? || manifest.value.schema != f.schema || manifest.value.algorithm != f.algorithm {
      return Malformed;
    }
    if f.publicKey !in a || f.parseKey(a[f.publicKey]).None? || f.signature !in a {
      return Malformed;
    }
    var pub := f.parseKey(a[f.publicKey]).value;
    var files := ResolveFiles(a, manifest.value.signedFiles);
    if files.None? {
      return Malformed;
    }
    var canon := CanonicalBytes(files.value);
    if !valid(pub, canon, a[f.signature]) {
      return BadSignature;
    }
    if manifest.value.fingerprint != "" && f.fingerprint(pub) != manifest.value.fingerprint {
      return WrongSigner;
    }
    var integrity := CheckEvents(h, f, a, manifest.value.declared);
    if integrity.None? {
      return BadEvents;
    }
    if trusts.Some? && !trusts.value(pub) {
      return Untrusted;
    }
    r := Verified(integrity.value);
  }

  /** An accepted bundle under a trust set whose keys signed only exports that include the manifest and the events:
      the manifest and the events that were judged are those of one genuine export. */
  lemma EvidenceIsGenuine(h: HashFn, f: Format, valid: Valid, trusts: Key -> bool, signed: set<(Key, seq<byte>)>,
                          exports: set<seq<File>>, a: Archive) returns (export_: seq<File>)
    requires Unforgeable(valid, signed) && (forall k :: trusts(k) ==> SignsOnly(signed, k, exports))
    requires forall fs :: fs in exports ==>
               (exists g :: g in fs && g.name == f.bundleJson) && (exists g :: g in fs && g.name == f.eventsFile)
    requires Consistent(h, f, valid, a) && trusts(SignerOf(f, a)) && AllEncodable(SignedFiles(f, a))
    ensures export_ in exports && SignedFiles(f, a) == export_
    ensures File(f.bundleJson, a[f.bundleJson]) in export_
    ensures f.eventsFile in a && File(f.eventsFile, a[f.eventsFile]) in export_
  {
    export_ := SignedFiles(f, a);
    VerifiedIsGenuine(valid, signed, SignerOf(f, a), exports, a, ManifestOf(f, a).signedFiles, a[f.signature]);
    var g :| g in export_ && g.name == f.bundleJson;
    assert g == File(g.name, a[g.name]);
    var e :| e in export_ && e.name == f.eventsFile;
    assert e == File(e.name, a[e.name]);
  }
}
