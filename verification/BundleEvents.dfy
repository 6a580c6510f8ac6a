/** The chain-segment check of an evidence bundle: events of many shards, filtered and in any order. */
module BundleEvents {
  import opened Common
  import opened AuditEvents
  import opened AuditAppend
  import opened AuditSearch

  /** What bundle.json says about the events. */
  datatype Declared = Declared(eventCount: nat, headHash: string, headSequence: int)

  datatype Integrity = Integrity(checked: nat, linkage: bool, gaps: nat, headMatched: bool)

  datatype Verdict = Accepted(integrity: Integrity) | WrongCount | BadHash | ChainBreak | WrongHead

  type ShardOf = Event -> string

  /** The elements of one group, in order; here the events of one shard, in bundle order. */
  function Slice<T(!new)>(keyOf: T -> string, xs: seq<T>, k: string): (r: seq<T>)
    ensures forall x :: x in r <==> x in xs && keyOf(x) == k
  {
    if xs == [] then []
    else
      assert xs == Front(xs) + [Last(xs)];
      if keyOf(Last(xs)) == k then Slice(keyOf, Front(xs), k) + [Last(xs)] else Slice(keyOf, Front(xs), k)
  }

  predicate Follows(c: seq<Event>, i: nat)
    requires 0 < i < |c|
  {
    c[i].sequence == c[i - 1].sequence + 1
  }

  predicate BrokenAt(c: seq<Event>, i: nat)
    requires 0 < i < |c|
  {
    Follows(c, i) && c[i].prevHash != c[i - 1].hash
  }

  /** Sequences count up by one all along. */
  predicate Consecutive(c: seq<Event>) {
    forall i :: 0 < i < |c| ==> Follows(c, i)
  }

  predicate Unbroken(c: seq<Event>) {
    forall i :: 0 < i < |c| ==> !BrokenAt(c, i)
  }

  function Gaps(c: seq<Event>): nat {
    if |c| < 2 then 0 else Gaps(Front(c)) + if Follows(c, |c| - 1) then 0 else 1
  }

  lemma {:induction false} NoGaps(c: seq<Event>)
    ensures Gaps(c) == 0 <==> Consecutive(c)
  {
    if |c| >= 2 {
      NoGaps(Front(c));
      assert forall i :: 0 < i < |c| - 1 ==> Follows(Front(c), i) == Follows(c, i);
    }
  }

  // ---- the code ----

  method CheckHashes(h: HashFn, events: seq<Event>) returns (ok: bool)
    ensures ok <==> forall e :: e in events ==> e.hash == ComputeHash(h, e)
  {
    var i := 0;
    while i < |events|
      invariant 0 <= i <= |events|
      invariant forall j :: 0 <= j < i ==> events[j].hash == ComputeHash(h, events[j])
    {
      if ComputeHash(h, events[i]) != events[i].hash {
        return false;
      }
      i := i + 1;
    }
    ok := true;
  }

  /** `groups` holds the slice of every key that occurs, `keys` lists those keys once. */
  ghost predicate Grouped<T(!new)>(keyOf: T -> string, xs: seq<T>, groups: map<string, seq<T>>, keys: seq<string>) {
    && (forall k :: k in groups <==> k in keys)
    && (forall k :: k in groups ==> groups[k] != [] && groups[k] == Slice(keyOf, xs, k))
    && (forall k :: k !in groups ==> Slice(keyOf, xs, k) == [])
    && (forall i, j :: 0 <= i < j < |keys| ==> keys[i] != keys[j])
  }

  lemma GroupOneMore<T(!new)>(keyOf: T -> string, xs: seq<T>, groups: map<string, seq<T>>, keys: seq<string>, x: T,
                              keys': seq<string>, group: seq<T>)
    requires Grouped(keyOf, xs, groups, keys)
    requires keys' == if keyOf(x) in groups then keys else keys + [keyOf(x)]
    requires group == (if keyOf(x) in groups then groups[keyOf(x)] else []) + [x]
    ensures Grouped(keyOf, xs + [x], groups[keyOf(x) := group], keys')
  {
    assert Front(xs + [x]) == xs;
  }

  /** One element joins its group. */
  method AddToGroup<T(!new)>(keyOf: T -> string, groups: map<string, seq<T>>, keys: seq<string>, x: T, ghost xs: seq<T>)
    returns (groups': map<string, seq<T>>, keys': seq<string>)
    requires Grouped(keyOf, xs, groups, keys)
    ensures Grouped(keyOf, xs + [x], groups', keys')
  {
    var k := keyOf(x);
    var group;
    if k !in groups {
      keys', group := keys + [k], [x];
    } else {
      keys', group := keys, groups[k] + [x];
    }
    GroupOneMore(keyOf, xs, groups, keys, x, keys', group);
    groups' := groups[k := group];
  }

  /** byShard, with the shards in the order in which they were first seen. */
  method GroupByShard<T(!new)>(keyOf: T -> string, xs: seq<T>) returns (groups: map<string, seq<T>>, keys: seq<string>)
    ensures Grouped(keyOf, xs, groups, keys)
  {
    groups, keys := map[], [];
    ghost var seen: seq<T> := [];
    var i := 0;
    while i < |xs|
      invariant 0 <= i <= |xs| && seen == xs[..i] && Grouped(keyOf, seen, groups, keys)
    {
      groups, keys := AddToGroup(keyOf, groups, keys, xs[i], seen);
      seen := seen + [xs[i]];
      i := i + 1;
    }
    assert seen == xs;
  }

  lemma GapsSnoc(c: seq<Event>, i: nat)
    requires 0 < i < |c|
    ensures Gaps(c[..i + 1]) == Gaps(c[..i]) + if Follows(c, i) then 0 else 1
  {
    assert Front(c[..i + 1]) == c[..i];
  }

  /** The linkage walk of one shard; `broken` ends the whole verification. */
  method WalkShard(c: seq<Event>) returns (broken: bool, gaps: nat)
    ensures broken <==> !Unbroken(c)
    ensures !broken ==> gaps == Gaps(c)
  {
    gaps := 0;
    var i := 1;
    while i < |c|
      invariant 1 <= i && (c != [] ==> i <= |c| && gaps == Gaps(c[..i]))
      invariant c == [] ==> gaps == 0
      invariant forall j :: 0 < j < i && j < |c| ==> !BrokenAt(c, j)
    {
      GapsSnoc(c, i);
      if c[i].sequence != c[i - 1].sequence + 1 {
        gaps := gaps + 1;
      } else if c[i].prevHash != c[i - 1].hash {
        assert BrokenAt(c, i);
        return true, gaps;
      }
      i := i + 1;
    }
    assert c != [] ==> c[..i] == c;
    broken := false;
  }

  /** No shard of the bundle has a consecutive pair that does not link. */
  ghost predicate NoBreak(shardOf: ShardOf, events: seq<Event>) {
    forall k :: Unbroken(Slice(shardOf, events, k))
  }

  ghost predicate AllConsecutive(shardOf: ShardOf, events: seq<Event>) {
    forall k :: Consecutive(Slice(shardOf, events, k))
  }

  method WalkShards(shardOf: ShardOf, events: seq<Event>) returns (broken: bool, linkage: bool, gaps: nat)
    ensures broken <==> !NoBreak(shardOf, events)
    ensures !broken ==> (linkage <==> AllConsecutive(shardOf, events)) && (linkage <==> gaps == 0)
  {
    var byShard, shards := GroupByShard(shardOf, events);
    linkage, gaps := true, 0;
    var i := 0;
    while i < |shards|
      invariant 0 <= i <= |shards|
      invariant forall j :: 0 <= j < i ==> Unbroken(byShard[shards[j]])
      invariant linkage <==> forall j :: 0 <= j < i ==> Consecutive(byShard[shards[j]])
      invariant linkage <==> gaps == 0
    {
      var broken', g := WalkShard(byShard[shards[i]]);
      if broken' {
        return true, false, gaps;
      }
      NoGaps(byShard[shards[i]]);
      gaps := gaps + g;
      linkage := linkage && g == 0;
      i := i + 1;
    }
    broken := false;
    EveryShard(shardOf, events, byShard, shards);
  }

  /** Looking at the shards that occur is looking at all of them. */
  lemma EveryShard(shardOf: ShardOf, events: seq<Event>, byShard: map<string, seq<Event>>, shards: seq<string>)
    requires Grouped(shardOf, events, byShard, shards)
    ensures NoBreak(shardOf, events) <==> forall j :: 0 <= j < |shards| ==> Unbroken(byShard[shards[j]])
    ensures AllConsecutive(shardOf, events) <==> forall j :: 0 <= j < |shards| ==> Consecutive(byShard[shards[j]])
  {
    forall k | k !in shards
      ensures Unbroken(Slice(shardOf, events, k)) && Consecutive(Slice(shardOf, events, k))
    {
      assert Slice(shardOf, events, k) == [];
    }
    assert forall j :: 0 <= j < |shards| ==> byShard[shards[j]] == Slice(shardOf, events, shards[j]);
  }

  predicate HashesHold(h: HashFn, events: seq<Event>) {
    forall e :: e in events ==> e.hash == ComputeHash(h, e)
  }

  /** The last event stands at the recorded head sequence. */
  predicate ReachesHead(events: seq<Event>, d: Declared) {
    d.headHash != "" && events != [] && Last(events).sequence == d.headSequence
  }

  /** verifyBundleEvents, for a bundle that carries events.ndjson. */
  method VerifyEvents(h: HashFn, shardOf: ShardOf, events: seq<Event>, d: Declared) returns (v: Verdict)
    ensures v.Accepted? <==>
              && d.eventCount == |events| && HashesHold(h, events) && NoBreak(shardOf, events)
              && (ReachesHead(events, d) ==> Last(events).hash == d.headHash)
    ensures v.Accepted? ==>
              && v.integrity.checked == |events|
              && (v.integrity.linkage <==> AllConsecutive(shardOf, events))
              && (v.integrity.linkage <==> v.integrity.gaps == 0)
              && (v.integrity.headMatched <==> ReachesHead(events, d))
    ensures v.WrongCount? <==> d.eventCount != |events|
    ensures v.BadHash? <==> d.eventCount == |events| && !HashesHold(h, events)
    ensures v.ChainBreak? <==> d.eventCount == |events| && HashesHold(h, events) && !NoBreak(shardOf, events)
  {
    if d.eventCount != |events| {
      return WrongCount;
    }
    var hashed := CheckHashes(h, events);
    if !hashed {
      return BadHash;
    }
    var broken, linkage, gaps := WalkShards(shardOf, events);
    if broken {
      return ChainBreak;
    }
    var matched := false;
    if d.headHash != "" && |events| > 0 {
      var last := events[|events| - 1];
      if last.sequence == d.headSequence {
        if last.hash != d.headHash {
          return WrongHead;
        }
        matched := true;
      }
    }
    v := Accepted(Integrity(|events|, linkage, gaps, matched));
  }

  // ---- export then verify ----

  /** Events of a chain, each at the slot its own scope and sequence name. */
  predicate FromChain(chain: map<Slot, Event>, e: Event) {
    Slot(ShardKey(e), e.sequence) in chain && chain[Slot(ShardKey(e), e.sequence)] == e
  }

  lemma GenuinePairLinks(h: HashFn, chain: map<Slot, Event>, a: Event, b: Event)
    requires ChainOK(h, chain) && FromChain(chain, a) && FromChain(chain, b)
    requires ShardKey(a) == ShardKey(b) && b.sequence == a.sequence + 1
    ensures b.prevHash == a.hash
  {
    assert EventOK(h, chain, Slot(ShardKey(b), b.sequence));
    assert EventOK(h, chain, Slot(ShardKey(a), a.sequence));
  }

  lemma GenuineUnbroken(h: HashFn, chain: map<Slot, Event>, events: seq<Event>, k: string)
    requires ChainOK(h, chain) && forall e :: e in events ==> FromChain(chain, e)
    ensures Unbroken(Slice(ShardKey, events, k))
  {
    var c := Slice(ShardKey, events, k);
    forall i | 0 < i < |c|
      ensures !BrokenAt(c, i)
    {
      assert c[i] in c && c[i - 1] in c;
      if Follows(c, i) { GenuinePairLinks(h, chain, c[i - 1], c[i]); }
    }
  }

  lemma GenuineHashes(h: HashFn, chain: map<Slot, Event>, events: seq<Event>)
    requires ChainOK(h, chain) && forall e :: e in events ==> FromChain(chain, e)
    ensures HashesHold(h, events)
  {
    forall e | e in events
      ensures e.hash == ComputeHash(h, e)
    {
      assert EventOK(h, chain, Slot(ShardKey(e), e.sequence));
    }
  }

  /** ExportBundle's description of its own tip, or of the global chain when nothing matched. */
  function Describe(events: seq<Event>, globalHead: Option<HeadPointer>): Declared {
    if events != [] then Declared(|events|, Last(events).hash, Last(events).sequence)
    else if globalHead.Some? then Declared(0, globalHead.value.hash, globalHead.value.sequence)
    else Declared(0, "", 0)
  }

  datatype Exported = Exported(events: seq<Event>, declared: Declared) | SearchFailed

  /** The events and manifest of ExportBundle: what Search finds, in its order. */
  method Export(chain: map<Slot, Event>, listing: seq<Event>, keep: Event -> bool, limit: int, reverse: bool,
                globalHead: Option<HeadPointer>) returns (x: Exported)
    requires -TWO63 <= limit < TWO63 && forall e :: e in listing ==> FromChain(chain, e)
    ensures x.SearchFailed? <==> Overruns(limit, |Matches(keep, listing)|)
    ensures x.Exported? ==>
              && x.declared == Describe(x.events, globalHead)
              && Answers(Matches(keep, listing), limit, reverse, x.events)
              && forall e :: e in x.events ==> e in listing && keep(e) && FromChain(chain, e)
  {
    var found := Search(listing, keep, limit, reverse);
    if found.Crashed? {
      return SearchFailed;
    }
    forall e | e in found.events
      ensures e in listing && keep(e)
    {
      assert e in multiset(found.events);
      MatchIsListed(keep, listing, e);
    }
    x := Exported(found.events, Describe(found.events, globalHead));
  }

  lemma {:induction false} MatchIsListed(keep: Event -> bool, events: seq<Event>, e: Event)
    requires e in Matches(keep, events)
    ensures e in events && keep(e)
  {
    if e != Last(events) || !keep(Last(events)) { MatchIsListed(keep, Front(events), e); }
  }

  /** Whatever the filter, the limit and the order: the exported events of a genuine chain are accepted, the recorded
      head is matched when there are events, and linkage is asserted exactly when every shard's slice is consecutive. */
  method ExportThenVerify(h: HashFn, chain: map<Slot, Event>, listing: seq<Event>, keep: Event -> bool, limit: int,
                          reverse: bool, globalHead: Option<HeadPointer>) returns (x: Exported, v: Verdict)
    requires Ideal(h) && ChainOK(h, chain) && -TWO63 <= limit < TWO63
    requires forall e :: e in listing ==> FromChain(chain, e)
    ensures x.SearchFailed? <==> Overruns(limit, |Matches(keep, listing)|)
    ensures x.Exported? ==> Answers(Matches(keep, listing), limit, reverse, x.events)
    ensures x.Exported? ==>
              && v.Accepted? && v.integrity.checked == |x.events|
              && (v.integrity.headMatched <==> x.events != [])
              && (v.integrity.linkage <==> AllConsecutive(ShardKey, x.events))
  {
    x := Export(chain, listing, keep, limit, reverse, globalHead);
    if x.SearchFailed? {
      return x, WrongCount;
    }
    GenuineAccepted(h, chain, x.events);
    v := VerifyEvents(h, ShardKey, x.events, x.declared);
  }

  lemma GenuineAccepted(h: HashFn, chain: map<Slot, Event>, events: seq<Event>)
    requires Ideal(h) && ChainOK(h, chain) && forall e :: e in events ==> FromChain(chain, e)
    ensures HashesHold(h, events) && NoBreak(ShardKey, events)
    ensures events != [] ==> Last(events).hash != ""
  {
    GenuineHashes(h, chain, events);
    forall k
      ensures Unbroken(Slice(ShardKey, events, k))
    {
      GenuineUnbroken(h, chain, events, k);
    }
    if events != [] { assert Last(events) in events; }
  }

  /** What asserted linkage proves about an arbitrary bundle: a shard's slice that ends in a committed event consists
      of committed events only, at consecutive sequences. */
  lemma {:induction false} AssertedSliceIsGenuine(h: HashFn, chain: map<Slot, Event>, c: seq<Event>, k: string, i: nat)
    requires Ideal(h) && ChainOK(h, chain) && HashesHold(h, c) && Consecutive(c) && Unbroken(c)
    requires (forall e :: e in c ==> ShardKey(e) == k) && c != [] && FromChain(chain, Last(c)) && i < |c|
    requires c[0].sequence >= 0
    ensures FromChain(chain, c[i])
    decreases |c| - i
  {
    if i < |c| - 1 {
      AssertedSliceIsGenuine(h, chain, c, k, i + 1);
      PredecessorIsGenuine(h, chain, c, k, i);
    }
  }

  lemma {:induction false} SequencesCount(c: seq<Event>, i: nat)
    requires Consecutive(c) && i < |c|
    ensures c[i].sequence == c[0].sequence + i
  {
    if i > 0 {
      SequencesCount(c, i - 1);
      assert Follows(c, i);
    }
  }

  lemma PredecessorIsGenuine(h: HashFn, chain: map<Slot, Event>, c: seq<Event>, k: string, i: nat)
    requires Ideal(h) && ChainOK(h, chain) && HashesHold(h, c) && Consecutive(c) && Unbroken(c) && i + 1 < |c|
    requires (forall e :: e in c ==> ShardKey(e) == k) && FromChain(chain, c[i + 1]) && c[0].sequence >= 0
    ensures FromChain(chain, c[i])
  {
    SequencesCount(c, i);
    assert c[i] in c && c[i + 1] in c;
    assert Follows(c, i + 1) && !BrokenAt(c, i + 1);
    assert EventOK(h, chain, Slot(k, c[i + 1].sequence));
    var prior := chain[Slot(k, c[i].sequence)];
    assert EventOK(h, chain, Slot(k, c[i].sequence));
    HashIdentifies(h, c[i], prior);
  }
}
