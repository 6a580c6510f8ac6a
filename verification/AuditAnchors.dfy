/** The self-hosted transparency log: write-once witnesses of chain heads. */
module AuditAnchors {
  import opened Common
  import opened AuditEvents

  const ANCHOR_SCHEMA: string := "pg_hardstorage.audit.anchor.v1"

  /** The bytes that deriveAnchorID hashes; the shard is appended only when there is one. */
  function Preimage(a: Anchor): string {
    a.schema + [NUL] + (a.headHash + [NUL] + (Hex(a.headSequence, WIDTH) + ShardSuffix(a.shard)))
  }

  function ShardSuffix(shard: string): string {
    if shard == "" then "" else [NUL] + shard
  }

  /** SHA-256, cut to 128 bits. */
  type Digest = string -> string

  function AnchorId(d: Digest, a: Anchor): string {
    d(Preimage(a))
  }

  /** The head that an anchor witnesses. */
  predicate SameHead(a: Anchor, b: Anchor) {
    a.schema == b.schema && a.shard == b.shard && a.headHash == b.headHash && a.headSequence == b.headSequence
  }

  predicate Plain(a: Anchor) {
    NUL !in a.schema && NUL !in a.headHash && 0 <= a.headSequence <= MAX_INT64
  }

  lemma HexInjective(n: nat, m: nat)
    requires n <= MAX_INT64 && m <= MAX_INT64 && Hex(n, WIDTH) == Hex(m, WIDTH)
    ensures n == m
  {
    Pow16Sixteen();
    ParseHex(n, WIDTH);
    ParseHex(m, WIDTH);
  }

  lemma SuffixSplits(x: string, s: string, y: string, t: string)
    requires |x| == |y| && x + ShardSuffix(s) == y + ShardSuffix(t)
    ensures x == y && s == t
  {
    assert x == (x + ShardSuffix(s))[..|x|] && y == (y + ShardSuffix(t))[..|y|];
    assert ShardSuffix(s) == (x + ShardSuffix(s))[|x|..] && ShardSuffix(t) == (y + ShardSuffix(t))[|y|..];
    if s != "" && t != "" { assert ShardSuffix(s)[1..] == s && ShardSuffix(t)[1..] == t; }
  }

  /** Two anchors share an ID exactly when they witness the same head of the same shard. */
  lemma IdNamesHead(d: Digest, a: Anchor, b: Anchor)
    requires Injective(d) && Plain(a) && Plain(b)
    ensures AnchorId(d, a) == AnchorId(d, b) <==> SameHead(a, b)
  {
    if AnchorId(d, a) == AnchorId(d, b) {
      var restA := a.headHash + [NUL] + (Hex(a.headSequence, WIDTH) + ShardSuffix(a.shard));
      var restB := b.headHash + [NUL] + (Hex(b.headSequence, WIDTH) + ShardSuffix(b.shard));
      SplitAt(a.schema, restA, NUL);
      SplitAt(b.schema, restB, NUL);
      SplitAt(a.headHash, Hex(a.headSequence, WIDTH) + ShardSuffix(a.shard), NUL);
      SplitAt(b.headHash, Hex(b.headSequence, WIDTH) + ShardSuffix(b.shard), NUL);
      SuffixSplits(Hex(a.headSequence, WIDTH), a.shard, Hex(b.headSequence, WIDTH), b.shard);
      HexInjective(a.headSequence, b.headSequence);
    }
  }

  /** A missing schema means the current one. */
  function Completed(a: Anchor): Anchor {
    if a.schema == "" then a.(schema := ANCHOR_SCHEMA) else a
  }

  class AnchorLog {
    const digest: Digest
    var stored: map<string, Anchor>

    constructor (digest: Digest)
      ensures this.digest == digest && stored == map[] && Valid()
    {
      this.digest, stored := digest, map[];
    }

    /** Every anchor is filed under the ID of the head it witnesses. */
    ghost predicate Valid()
      reads this
    {
      forall id :: id in stored ==> stored[id].logId == id == AnchorId(digest, stored[id])
    }

    /** PutAnchor: the first witness of a head stays, later ones get its ID. */
    method PutAnchor(anchor: Anchor) returns (id: Option<string>)
      requires Valid()
      modifies this`stored
      ensures Valid()
      ensures id.None? <==> anchor.headHash == ""
      ensures id.None? ==> stored == old(stored)
      ensures id.Some? ==>
                var a := if anchor.schema == "" then anchor.(schema := ANCHOR_SCHEMA) else anchor;
                && id.value == AnchorId(digest, a) && id.value in stored
                && stored == if id.value in old(stored) then old(stored)
                             else old(stored)[id.value := a.(logId := id.value)]
    {
      var a := Completed(anchor);
      if a.headHash == "" {
        return None;
      }
      var logId := AnchorId(digest, a);
      if logId !in stored {
        stored := stored[logId := a.(logId := logId)];
      }
      id := Some(logId);
    }

    /** LatestAnchor: the highest sequence of all shards together. */
    method LatestAnchor() returns (best: Option<Anchor>)
      ensures best.None? <==> stored == map[]
      ensures best.Some? ==> best.value in stored.Values
      ensures best.Some? ==> forall id :: id in stored ==> stored[id].headSequence <= best.value.headSequence
    {
      var todo := stored.Keys;
      best := None;
      while todo != {}
        invariant todo <= stored.Keys
        invariant best.None? ==> todo == stored.Keys
        invariant best.Some? ==> best.value in stored.Values
        invariant best.Some? ==> forall id :: id in stored && id !in todo ==> stored[id].headSequence <= best.value.headSequence
        decreases todo
      {
        var id :| id in todo;
        var a := stored[id];
        if best.None? || a.headSequence > best.value.headSequence { best := Some(a); }
        todo := todo - {id};
      }
      assert stored.Keys == {} ==> stored == map[];
    }
  }
}
