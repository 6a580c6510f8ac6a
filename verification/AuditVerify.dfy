/** Chain verification, anchors, and what a clean verdict proves about an arbitrary store. */
module AuditVerify {
  import opened Common
  import opened Bytes
  import opened Sorting
  import opened AuditEvents
  import opened AuditAppend

  /** One listed event object: its storage key and its parsed body, which need not agree. */
  datatype Entry = Entry(key: string, event: Event)

  /** One shard as a verifier finds it: its listing, in any order, and its head pointer. */
  datatype Shard = Shard(name: string, entries: seq<Entry>, head: Option<HeadPointer>)

  predicate Typed(sh: Shard) {
    forall i :: 0 <= i < |sh.entries| ==> Int64(sh.entries[i].event.sequence)
  }

  // ---- the external sorter's records ----

  datatype Record = Record(key: seq<byte>, value: string)

  function RecordOf(e: Event): Record
    requires Int64(e.sequence)
  {
    Record(SortKey(e.sequence), EncodeLink(e.hash, e.prevHash, e.id))
  }

  predicate KeyLess(r: Record, q: Record) {
    Less(r.key, q.key)
  }

  lemma KeyLessIsOrder()
    ensures WeakOrder(KeyLess)
  {
    forall a: Record, b: Record | KeyLess(a, b)
      ensures !KeyLess(b, a)
    {
      LessAsymmetric(a.key, b.key);
    }
    forall a: Record, b: Record, c: Record | KeyLess(a, c) && !KeyLess(b, c)
      ensures KeyLess(a, b)
    {
      LessThrough(a.key, c.key, b.key);
    }
  }

  // ---- from records back to events ----

  function Events(entries: seq<Entry>): (es: seq<Event>)
    ensures |es| == |entries| && forall i :: 0 <= i < |es| ==> es[i] == entries[i].event
  {
    if entries == [] then [] else Events(entries[..|entries| - 1]) + [entries[|entries| - 1].event]
  }

  predicate AllInt64(es: seq<Event>) {
    forall i :: 0 <= i < |es| ==> Int64(es[i].sequence)
  }

  function Records(es: seq<Event>): (rs: seq<Record>)
    requires AllInt64(es)
    ensures |rs| == |es| && forall i :: 0 <= i < |rs| ==> rs[i] == RecordOf(es[i])
  {
    seq(|es|, i requires 0 <= i < |es| => RecordOf(es[i]))
  }

  predicate Ordered(es: seq<Event>) {
    forall i, j :: 0 <= i < j < |es| ==> es[i].sequence <= es[j].sequence
  }

  /** `s` lists the events `es` in sequence order. */
  ghost predicate InOrder(s: seq<Event>, es: seq<Event>) {
    multiset(s) == multiset(es) && Ordered(s)
  }

  lemma RecordsWithout(es: seq<Event>, k: nat)
    requires AllInt64(es) && k < |es|
    ensures AllInt64(es[..k] + es[k + 1..])
    ensures multiset(Records(es)) == multiset(Records(es[..k] + es[k + 1..])) + multiset{RecordOf(es[k])}
  {
    RemoveAt(Records(es), k);
    assert Records(es[..k] + es[k + 1..]) == Records(es)[..k] + Records(es)[k + 1..];
  }

  lemma FindRecord(r: Record, rs: seq<Record>, es: seq<Event>) returns (k: nat)
    requires AllInt64(es) && multiset([r] + rs) == multiset(Records(es))
    ensures k < |es| && RecordOf(es[k]) == r
    ensures AllInt64(es[..k] + es[k + 1..])
    ensures multiset(rs) == multiset(Records(es[..k] + es[k + 1..]))
  {
    assert r in multiset([r] + rs);
    assert r in Records(es);
    k :| 0 <= k < |es| && Records(es)[k] == r;
    RecordsWithout(es, k);
    var rest := multiset(Records(es[..k] + es[k + 1..]));
    assert multiset(rs) == multiset([r] + rs) - multiset{r};
    assert rest == (rest + multiset{r}) - multiset{r};
  }

  lemma RecordsCons(e: Event, s: seq<Event>)
    requires Int64(e.sequence) && AllInt64(s)
    ensures AllInt64([e] + s) && Records([e] + s) == [RecordOf(e)] + Records(s)
  {
  }

  /** A permutation of the records is the records of a permutation. */
  lemma {:induction false} Unsort(rs: seq<Record>, es: seq<Event>) returns (s: seq<Event>)
    requires AllInt64(es) && multiset(rs) == multiset(Records(es))
    ensures AllInt64(s) && multiset(s) == multiset(es) && Records(s) == rs
    decreases |rs|
  {
    if rs == [] {
      assert |multiset(rs)| == |multiset(Records(es))|;
      s := [];
    } else {
      assert rs == [rs[0]] + rs[1..];
      var k := FindRecord(rs[0], rs[1..], es);
      var s' := Unsort(rs[1..], es[..k] + es[k + 1..]);
      RecordsCons(es[k], s');
      RemoveAt(es, k);
      s := [es[k]] + s';
    }
  }

  /** Sorting the spilled records by bytes sorts the events by sequence. */
  lemma AscendingIsOrdered(s: seq<Event>)
    requires AllInt64(s) && NeverDescends(KeyLess, Records(s))
    ensures Ordered(s)
  {
    forall i, j | 0 <= i < j < |s|
      ensures s[i].sequence <= s[j].sequence
    {
      assert !Less(Records(s)[j].key, Records(s)[i].key);
      SortKeyOrder(s[j].sequence, s[i].sequence);
    }
  }

  // ---- VerifyChain ----

  const MAX_FINDINGS: nat := 10000

  datatype Findings = Findings(
    checked: nat, mismatches: seq<string>, breaks: seq<string>, misfiled: seq<string>,
    truncated: seq<string>, headMissing: seq<string>, cut: bool)

  predicate Clean(f: Findings) {
    f.mismatches == [] && f.breaks == [] && f.misfiled == [] && f.truncated == [] && f.headMissing == []
  }

  function AddFinding(list: seq<string>, id: string): (r: seq<string>)
    ensures r != []
  {
    if |list| >= MAX_FINDINGS then list else list + [id]
  }

  /** The event hashes to what it records and is filed under the shard its scope implies. */
  predicate Genuine(h: HashFn, name: string, e: Event) {
    e.hash == ComputeHash(h, e) && ShardKey(e) == name
  }

  predicate SelfConsistent(h: HashFn, name: string, es: seq<Event>) {
    forall i :: 0 <= i < |es| ==> Genuine(h, name, es[i])
  }

  /** One comparison of the linkage walk over the sorted records. */
  predicate LinkedAt(rs: seq<Record>, i: nat)
    requires i < |rs|
  {
    DecodeLink(rs[i].value).1 == if i == 0 then GENESIS else DecodeLink(rs[i - 1].value).0
  }

  predicate RecordsLinked(rs: seq<Record>) {
    forall i :: 0 <= i < |rs| ==> LinkedAt(rs, i)
  }

  /** The tail check: the pointer must not be ahead of the last event, nor disagree with it. */
  predicate HeadFits(head: Option<HeadPointer>, n: int, hash: string) {
    head.Some? && head.value.sequence <= n && (head.value.sequence == n ==> head.value.hash == hash)
  }

  /** The verdict on one shard when the sorter delivers its records in the order `rs`. */
  ghost predicate RecordsClean(h: HashFn, sh: Shard, rs: seq<Record>) {
    && SelfConsistent(h, sh.name, Events(sh.entries))
    && RecordsLinked(rs)
    && (rs != [] ==> HeadFits(sh.head, SeqOfKey(rs[|rs| - 1].key), DecodeLink(rs[|rs| - 1].value).0))
  }

  /** int64(BigEndian.Uint64(k) ^ (1 << 63)) */
  function SeqOfKey(k: seq<byte>): int {
    FromBigEndian(k) - TWO63
  }

  lemma SeqOfSortKey(n: int)
    requires Int64(n)
    ensures SeqOfKey(SortKey(n)) == n
  {
    Pow256Eight();
    BigEndianRoundTrip(FlipTopBit(ToUint64(n)), 8);
  }

  method CheckEvent(h: HashFn, name: string, e: Event, before: Findings) returns (res: Findings)
    ensures Clean(res) <==> Clean(before) && Genuine(h, name, e)
    ensures res.checked == before.checked + 1
    ensures res.mismatches == if e.hash == ComputeHash(h, e) then before.mismatches else AddFinding(before.mismatches, e.id)
    ensures res.misfiled == if ShardKey(e) == name then before.misfiled else AddFinding(before.misfiled, e.id)
    ensures res.breaks == before.breaks && res.truncated == before.truncated && res.headMissing == before.headMissing
  {
    res := before.(checked := before.checked + 1);
    if ComputeHash(h, e) != e.hash {
      res := res.(mismatches := AddFinding(res.mismatches, e.id), cut := res.cut || |res.mismatches| >= MAX_FINDINGS);
    }
    if ShardKey(e) != name {
      res := res.(misfiled := AddFinding(res.misfiled, e.id), cut := res.cut || |res.misfiled| >= MAX_FINDINGS);
    }
  }

  /** The effect of one event on the verdict alone. */
  method CheckVerdict(h: HashFn, name: string, e: Event, before: Findings) returns (res: Findings)
    ensures Clean(res) <==> Clean(before) && Genuine(h, name, e)
    ensures res.checked == before.checked + 1
  {
    res := CheckEvent(h, name, e, before);
  }

  lemma OneMoreEvent(h: HashFn, name: string, es: seq<Event>, i: nat)
    requires i < |es|
    ensures SelfConsistent(h, name, es[..i + 1]) <==> SelfConsistent(h, name, es[..i]) && Genuine(h, name, es[i])
  {
    assert forall k :: 0 <= k < i ==> es[..i + 1][k] == es[..i][k];
    assert es[..i + 1][i] == es[i];
  }

  /** The hash and scope check while the listing streams past. */
  method CheckEvents(h: HashFn, sh: Shard, before: Findings) returns (res: Findings, links: seq<Record>)
    requires Typed(sh)
    ensures Clean(res) <==> Clean(before) && SelfConsistent(h, sh.name, Events(sh.entries))
    ensures links == Records(Events(sh.entries))
    ensures res.checked == before.checked + |sh.entries|
  {
    ghost var es := Events(sh.entries);
    res, links := before, [];
    var i := 0;
    while i < |sh.entries|
      invariant 0 <= i <= |sh.entries|
      invariant links == Records(es)[..i]
      invariant Clean(res) <==> Clean(before) && SelfConsistent(h, sh.name, es[..i])
      invariant res.checked == before.checked + i
    {
      var e := sh.entries[i].event;
      res := CheckVerdict(h, sh.name, e, res);
      OneMoreEvent(h, sh.name, es, i);
      links := links + [RecordOf(e)];
      i := i + 1;
    }
    assert es[..i] == es;
  }

  /** The findings after one more link record. */
  function LinkVerdict(res: Findings, id: string, linked: bool): (r: Findings)
    ensures Clean(r) <==> Clean(res) && linked
    ensures r.checked == res.checked
  {
    if linked then res
    else res.(breaks := AddFinding(res.breaks, id), cut := res.cut || |res.breaks| >= MAX_FINDINGS)
  }

  /** The linkage walk in sequence order, and the last event it saw. */
  method CheckLinks(rs: seq<Record>, before: Findings) returns (res: Findings, n: int, hash: string)
    ensures Clean(res) <==> Clean(before) && RecordsLinked(rs)
    ensures rs != [] ==> n == SeqOfKey(rs[|rs| - 1].key) && hash == DecodeLink(rs[|rs| - 1].value).0
    ensures res.checked == before.checked
  {
    res, n, hash := before, 0, "";
    var prev := GENESIS;
    var j := 0;
    while j < |rs|
      invariant 0 <= j <= |rs|
      invariant Clean(res) <==> Clean(before) && forall k :: 0 <= k < j ==> LinkedAt(rs, k)
      invariant prev == if j == 0 then GENESIS else DecodeLink(rs[j - 1].value).0
      invariant j > 0 ==> n == SeqOfKey(rs[j - 1].key) && hash == prev
      invariant res.checked == before.checked
    {
      var link := DecodeLink(rs[j].value);
      res := LinkVerdict(res, link.2, link.1 == prev);
      assert LinkedAt(rs, j) <==> link.1 == prev;
      prev, n, hash := link.0, SeqOfKey(rs[j].key), link.0;
      j := j + 1;
    }
  }

  /** verifyShard: one pass over the listing, one over the sorted link records, one look at the head. */
  method VerifyShard(h: HashFn, sh: Shard, before: Findings) returns (res: Findings, rs: seq<Record>)
    requires Typed(sh)
    ensures multiset(rs) == multiset(Records(Events(sh.entries))) && NeverDescends(KeyLess, rs)
    ensures Clean(res) <==> Clean(before) && RecordsClean(h, sh, rs)
    ensures res.checked == before.checked + |sh.entries|
  {
    var links;
    res, links := CheckEvents(h, sh, before);
    KeyLessIsOrder();
    rs := SpillSort(KeyLess, links);
    assert |rs| == |multiset(rs)| == |multiset(links)| == |sh.entries|;
    var n, hash;
    res, n, hash := CheckLinks(rs, res);
    if sh.entries != [] {
      if sh.head.None? {
        res := res.(headMissing := res.headMissing + [sh.name]);
      } else if sh.head.value.sequence > n {
        res := res.(truncated := res.truncated + [sh.name]);
      } else if sh.head.value.sequence == n && sh.head.value.hash != hash {
        res := res.(truncated := res.truncated + [sh.name]);
      }
    }
  }

  // ---- what the verdict says of the events ----

  /** What the linkage walk compares, on events: PrevHash up to a NUL, if it has one. */
  predicate EventLinkedAt(s: seq<Event>, i: nat)
    requires i < |s|
  {
    UpTo(s[i].prevHash, NUL) == if i == 0 then GENESIS else s[i - 1].hash
  }

  /** The events of a shard in sequence order, linked as far as the walk can see. */
  ghost predicate EventsClean(h: HashFn, name: string, s: seq<Event>, head: Option<HeadPointer>) {
    && SelfConsistent(h, name, s)
    && (forall i :: 0 <= i < |s| ==> EventLinkedAt(s, i))
    && (s != [] ==> HeadFits(head, s[|s| - 1].sequence, s[|s| - 1].hash))
  }

  lemma SelfConsistentPermuted(h: HashFn, name: string, s: seq<Event>, es: seq<Event>)
    requires multiset(s) == multiset(es) && SelfConsistent(h, name, es)
    ensures SelfConsistent(h, name, s)
  {
    forall i | 0 <= i < |s|
      ensures Genuine(h, name, s[i])
    {
      assert s[i] in multiset(s);
      assert s[i] in es;
    }
  }

  lemma RecordCarries(h: HashFn, name: string, e: Event)
    requires Ideal(h) && Int64(e.sequence) && Genuine(h, name, e)
    ensures DecodeLink(RecordOf(e).value).0 == e.hash
    ensures DecodeLink(RecordOf(e).value).1 == UpTo(e.prevHash, NUL)
    ensures SeqOfKey(RecordOf(e).key) == e.sequence
  {
    LinkOf(e.hash, e.prevHash, e.id);
    SeqOfSortKey(e.sequence);
  }

  lemma LinkedOnEvents(h: HashFn, name: string, s: seq<Event>, i: nat)
    requires Ideal(h) && AllInt64(s) && SelfConsistent(h, name, s) && i < |s|
    ensures LinkedAt(Records(s), i) <==> EventLinkedAt(s, i)
  {
    RecordCarries(h, name, s[i]);
    if i > 0 { RecordCarries(h, name, s[i - 1]); }
  }

  lemma CleanOnEvents(h: HashFn, sh: Shard, s: seq<Event>)
    requires Ideal(h) && AllInt64(s) && multiset(s) == multiset(Events(sh.entries))
    ensures RecordsClean(h, sh, Records(s)) <==> EventsClean(h, sh.name, s, sh.head)
  {
    var es, rs := Events(sh.entries), Records(s);
    if SelfConsistent(h, sh.name, s) || SelfConsistent(h, sh.name, es) {
      SelfConsistentBoth(h, sh.name, s, es);
      forall i | 0 <= i < |s|
        ensures LinkedAt(rs, i) <==> EventLinkedAt(s, i)
      {
        LinkedOnEvents(h, sh.name, s, i);
      }
      if s != [] { RecordCarries(h, sh.name, s[|s| - 1]); }
    }
  }

  lemma SelfConsistentBoth(h: HashFn, name: string, s: seq<Event>, es: seq<Event>)
    requires multiset(s) == multiset(es) && (SelfConsistent(h, name, s) || SelfConsistent(h, name, es))
    ensures SelfConsistent(h, name, s) && SelfConsistent(h, name, es)
  {
    if SelfConsistent(h, name, es) {
      SelfConsistentPermuted(h, name, s, es);
    } else {
      SelfConsistentPermuted(h, name, es, s);
    }
  }

  /** The code's verdict, restated on the events in sequence order. */
  lemma VerdictOnEvents(h: HashFn, sh: Shard, rs: seq<Record>) returns (s: seq<Event>)
    requires Ideal(h) && Typed(sh) && multiset(rs) == multiset(Records(Events(sh.entries))) && NeverDescends(KeyLess, rs)
    ensures InOrder(s, Events(sh.entries))
    ensures RecordsClean(h, sh, rs) <==> EventsClean(h, sh.name, s, sh.head)
  {
    s := Unsort(rs, Events(sh.entries));
    AscendingIsOrdered(s);
    CleanOnEvents(h, sh, s);
  }

  /** A sequence order of the shard's events that the walk may have taken. */
  ghost predicate OrderOf(sh: Shard, s: seq<Event>) {
    InOrder(s, Events(sh.entries))
  }

  ghost predicate ShardClean(h: HashFn, sh: Shard, s: seq<Event>) {
    EventsClean(h, sh.name, s, sh.head)
  }

  method VerifyOne(h: HashFn, sh: Shard, before: Findings) returns (res: Findings, ghost s: seq<Event>)
    requires Ideal(h) && Typed(sh)
    ensures OrderOf(sh, s) && (Clean(res) <==> Clean(before) && ShardClean(h, sh, s))
  {
    var rs;
    res, rs := VerifyShard(h, sh, before);
    s := VerdictOnEvents(h, sh, rs);
  }

  /** `orders` holds an order for every shard in which it was walked. */
  ghost predicate OrdersOf(shards: seq<Shard>, orders: seq<seq<Event>>) {
    && |orders| == |shards|
    && (shards == [] || (OrdersOf(Front(shards), Front(orders)) && OrderOf(Last(shards), Last(orders))))
  }

  ghost predicate AllClean(h: HashFn, shards: seq<Shard>, orders: seq<seq<Event>>)
    requires |orders| == |shards|
  {
    shards == [] || (AllClean(h, Front(shards), Front(orders)) && ShardClean(h, Last(shards), Last(orders)))
  }

  lemma {:induction false} EachShard(h: HashFn, shards: seq<Shard>, orders: seq<seq<Event>>, i: nat)
    requires OrdersOf(shards, orders) && i < |shards|
    ensures OrderOf(shards[i], orders[i])
    ensures AllClean(h, shards, orders) ==> ShardClean(h, shards[i], orders[i])
  {
    if i < |shards| - 1 { EachShard(h, Front(shards), Front(orders), i); }
  }

  lemma OneMoreShard(h: HashFn, shards: seq<Shard>, orders: seq<seq<Event>>, sh: Shard, s: seq<Event>)
    requires OrdersOf(shards, orders) && OrderOf(sh, s)
    ensures OrdersOf(shards + [sh], orders + [s])
    ensures AllClean(h, shards + [sh], orders + [s]) <==> AllClean(h, shards, orders) && ShardClean(h, sh, s)
  {
    assert Front(shards + [sh]) == shards && Front(orders + [s]) == orders;
  }

  /** Some sequence order of the shard's events is clean; unique unless two events claim one sequence. */
  ghost predicate Passes(h: HashFn, sh: Shard) {
    exists s :: OrderOf(sh, s) && ShardClean(h, sh, s)
  }

  /** Some sequence order of the shard's events is not clean. */
  ghost predicate Fails(h: HashFn, sh: Shard) {
    exists s :: OrderOf(sh, s) && !ShardClean(h, sh, s)
  }

  lemma {:induction false} SomeShardFails(h: HashFn, shards: seq<Shard>, orders: seq<seq<Event>>) returns (i: nat)
    requires OrdersOf(shards, orders) && !AllClean(h, shards, orders)
    ensures i < |shards| && Fails(h, shards[i])
  {
    if ShardClean(h, Last(shards), Last(orders)) {
      i := SomeShardFails(h, Front(shards), Front(orders));
    } else {
      i := |shards| - 1;
    }
  }

  lemma EveryShardPasses(h: HashFn, shards: seq<Shard>, orders: seq<seq<Event>>)
    requires OrdersOf(shards, orders) && AllClean(h, shards, orders)
    ensures forall i :: 0 <= i < |shards| ==> Passes(h, shards[i])
  {
    forall i | 0 <= i < |shards|
      ensures Passes(h, shards[i])
    {
      EachShard(h, shards, orders, i);
    }
  }

  /** The next shard of the loop. */
  method VerifyNext(h: HashFn, sh: Shard, before: Findings, ghost shards: seq<Shard>, ghost orders: seq<seq<Event>>)
    returns (res: Findings, ghost orders': seq<seq<Event>>)
    requires Ideal(h) && Typed(sh) && OrdersOf(shards, orders) && (Clean(before) <==> AllClean(h, shards, orders))
    ensures OrdersOf(shards + [sh], orders') && (Clean(res) <==> AllClean(h, shards + [sh], orders'))
  {
    ghost var s;
    res, s := VerifyOne(h, sh, before);
    OneMoreShard(h, shards, orders, sh, s);
    orders' := orders + [s];
  }

  /** What the verdict says of the shards. */
  ghost predicate Verdict(h: HashFn, shards: seq<Shard>, ok: bool) {
    && (ok ==> forall i :: 0 <= i < |shards| ==> Passes(h, shards[i]))
    && (!ok ==> exists i :: 0 <= i < |shards| && Fails(h, shards[i]))
  }

  lemma VerdictHolds(h: HashFn, shards: seq<Shard>, orders: seq<seq<Event>>, ok: bool)
    requires OrdersOf(shards, orders) && (ok <==> AllClean(h, shards, orders))
    ensures Verdict(h, shards, ok)
  {
    if ok {
      EveryShardPasses(h, shards, orders);
    } else {
      var bad := SomeShardFails(h, shards, orders);
    }
  }

  /** The loop over the shards; `orders` are the sequence orders it walked. */
  method VerifyShards(h: HashFn, shards: seq<Shard>) returns (res: Findings, ghost orders: seq<seq<Event>>)
    requires Ideal(h) && forall i :: 0 <= i < |shards| ==> Typed(shards[i])
    ensures OrdersOf(shards, orders) && (Clean(res) <==> AllClean(h, shards, orders))
  {
    res := Findings(0, [], [], [], [], [], false);
    ghost var seen: seq<Shard> := [];
    orders := [];
    var i := 0;
    while i < |shards|
      invariant 0 <= i <= |shards| && seen == shards[..i]
      invariant OrdersOf(seen, orders) && (Clean(res) <==> AllClean(h, seen, orders))
    {
      res, orders := VerifyNext(h, shards[i], res, seen, orders);
      seen := seen + [shards[i]];
      i := i + 1;
    }
    assert seen == shards;
  }

  /** VerifyChain over every shard of the repository. */
  method VerifyChain(h: HashFn, shards: seq<Shard>) returns (ok: bool, ghost orders: seq<seq<Event>>)
    requires Ideal(h) && forall i :: 0 <= i < |shards| ==> Typed(shards[i])
    ensures OrdersOf(shards, orders) && (ok <==> AllClean(h, shards, orders))
    ensures Verdict(h, shards, ok)
    // on the objects as listed: hashes recompute, scopes are filed right, and no head lies beyond the events present
    ensures ok ==> forall i, j :: 0 <= i < |shards| && 0 <= j < |shards[i].entries| ==>
              var e := shards[i].entries[j].event; e.hash == ComputeHash(h, e) && ShardKey(e) == shards[i].name
    ensures ok ==> forall i :: 0 <= i < |shards| && shards[i].entries != [] ==>
              shards[i].head.Some? && ReachesHead(shards[i].entries, shards[i].head.value)
  {
    var res;
    res, orders := VerifyShards(h, shards);
    ok := Clean(res);
    VerdictHolds(h, shards, orders, ok);
    if ok {
      forall i | 0 <= i < |shards|
        ensures forall j :: 0 <= j < |shards[i].entries| ==> Genuine(h, shards[i].name, shards[i].entries[j].event)
        ensures shards[i].entries != [] ==> shards[i].head.Some? && ReachesHead(shards[i].entries, shards[i].head.value)
      {
        EachShard(h, shards, orders, i);
        CleanAsListed(h, shards[i], orders[i]);
      }
    }
  }

  /** Some event present lies beyond the head pointer's, or is the one that it records. */
  predicate ReachesHead(entries: seq<Entry>, head: HeadPointer) {
    exists j :: 0 <= j < |entries|
                && (head.sequence < entries[j].event.sequence
                    || (head.sequence == entries[j].event.sequence && head.hash == entries[j].event.hash))
  }

  lemma CleanAsListed(h: HashFn, sh: Shard, s: seq<Event>)
    requires OrderOf(sh, s) && ShardClean(h, sh, s)
    ensures forall j :: 0 <= j < |sh.entries| ==> Genuine(h, sh.name, sh.entries[j].event)
    ensures sh.entries != [] ==> sh.head.Some? && ReachesHead(sh.entries, sh.head.value)
  {
    var es := Events(sh.entries);
    SelfConsistentBoth(h, sh.name, s, es);
    assert |s| == |multiset(s)| == |multiset(es)| == |es|;
    if es != [] {
      assert s[|s| - 1] in multiset(es);
      var j :| 0 <= j < |es| && es[j] == s[|s| - 1];
      assert sh.entries[j].event == s[|s| - 1];
    }
  }
}
