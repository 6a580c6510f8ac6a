/** What a clean verdict proves about an arbitrary store, and that genuine chains get one. */
module AuditExact {
  import opened Common
  import opened AuditEvents
  import opened AuditAppend
  import opened AuditVerify

  // ---- the link record's blind spot ----

  /** The documented linkage: PrevHash is the hash of the event before. */
  predicate DocumentedLink(s: seq<Event>, i: nat)
    requires i < |s|
  {
    s[i].prevHash == if i == 0 then GENESIS else s[i - 1].hash
  }

  lemma {:induction false} UpToDrops(x: string, c: char)
    ensures c !in UpTo(x, c)
  {
    if x != "" { UpToDrops(x[1..], c); }
  }

  lemma LinkIsDocumented(s: seq<Event>, i: nat)
    requires i < |s| && EventLinkedAt(s, i)
    ensures DocumentedLink(s, i) <==> NUL !in s[i].prevHash
  {
    var prev := s[i].prevHash;
    UpToDrops(prev, NUL);
    if NUL !in prev { UpToAbsent(prev, NUL); }
  }

  /** A clean verdict means what is documented exactly when no PrevHash contains a NUL. */
  lemma CleanMeansLinked(h: HashFn, name: string, s: seq<Event>, head: Option<HeadPointer>)
    requires EventsClean(h, name, s, head)
    ensures (forall i :: 0 <= i < |s| ==> DocumentedLink(s, i)) <==> (forall i :: 0 <= i < |s| ==> NUL !in s[i].prevHash)
  {
    forall i | 0 <= i < |s|
      ensures DocumentedLink(s, i) <==> NUL !in s[i].prevHash
    {
      assert EventLinkedAt(s, i);
      LinkIsDocumented(s, i);
    }
  }

  /** An event whose PrevHash is the genesis value, a NUL and more passes as the first of a chain. */
  lemma NulHidesTail(h: HashFn, draft: Event)
    requires Ideal(h)
    ensures var e := Finalize(h, draft, 0, GENESIS + [NUL] + "x");
            var head := Some(HeadPointer(0, e.hash, e.id, Slot(ShardKey(e), 0)));
            EventsClean(h, ShardKey(e), [e], head) && !DocumentedLink([e], 0)
  {
    var e := Finalize(h, draft, 0, GENESIS + [NUL] + "x");
    GenesisHasNoNul();
    SplitAt(GENESIS, "x", NUL);
    assert EventLinkedAt([e], 0);
    assert |e.prevHash| == |GENESIS| + 2;
  }

  // ---- exactness ----

  /** The committed events 0 .. n-1 of a shard. */
  function Committed(chain: map<Slot, Event>, shard: string, n: nat): (g: seq<Event>)
    requires forall k :: 0 <= k < n ==> Slot(shard, k) in chain
    ensures |g| == n && forall k :: 0 <= k < n ==> g[k] == chain[Slot(shard, k)]
  {
    if n == 0 then [] else Committed(chain, shard, n - 1) + [chain[Slot(shard, n - 1)]]
  }

  predicate HashedAt(h: HashFn, s: seq<Event>, i: nat)
    requires i < |s|
  {
    s[i].hash == ComputeHash(h, s[i])
  }

  /** Every event hashes to what it records and is linked as far as the walk can see. */
  ghost predicate Walkable(h: HashFn, s: seq<Event>) {
    forall i :: 0 <= i < |s| ==> HashedAt(h, s, i) && EventLinkedAt(s, i)
  }

  ghost predicate Genuinely(h: HashFn, g: seq<Event>) {
    forall i :: 0 <= i < |g| ==> HashedAt(h, g, i) && DocumentedLink(g, i)
  }

  lemma CommittedIsGenuine(h: HashFn, chain: map<Slot, Event>, shard: string, n: nat)
    requires ChainOK(h, chain) && Slot(shard, n) in chain
    ensures forall k :: 0 <= k < n + 1 ==> Slot(shard, k) in chain
    ensures Genuinely(h, Committed(chain, shard, n + 1))
  {
    forall k | 0 <= k < n + 1
      ensures Slot(shard, k) in chain
    {
      DownClosed(h, chain, shard, n, k);
    }
    var g := Committed(chain, shard, n + 1);
    forall i | 0 <= i < n + 1
      ensures HashedAt(h, g, i) && DocumentedLink(g, i)
    {
      assert EventOK(h, chain, Slot(shard, i));
    }
  }

  lemma CleanIsWalkable(h: HashFn, name: string, s: seq<Event>, head: Option<HeadPointer>)
    requires EventsClean(h, name, s, head)
    ensures Walkable(h, s)
  {
    forall i | 0 <= i < |s|
      ensures HashedAt(h, s, i) && EventLinkedAt(s, i)
    {
      assert Genuine(h, name, s[i]);
    }
  }

  /** A genuine event's PrevHash has no NUL and is the genesis value at the first event only. */
  lemma GenuinePrev(h: HashFn, g: seq<Event>, k: nat)
    requires Ideal(h) && Genuinely(h, g) && k < |g|
    ensures UpTo(g[k].prevHash, NUL) == g[k].prevHash
    ensures k > 0 ==> g[k].prevHash == g[k - 1].hash != GENESIS
  {
    assert DocumentedLink(g, k);
    if k == 0 {
      GenesisHasNoNul();
    } else {
      assert HashedAt(h, g, k - 1);
    }
    UpToAbsent(g[k].prevHash, NUL);
  }

  /** A genuine event inside a walkable sequence fixes its own position and its predecessor. */
  lemma PinnedStep(h: HashFn, s: seq<Event>, g: seq<Event>, p: nat, k: nat)
    requires Ideal(h) && Walkable(h, s) && Genuinely(h, g) && p < |s| && k < |g| && s[p] == g[k]
    ensures p == 0 <==> k == 0
    ensures p > 0 && k > 0 ==> s[p - 1] == g[k - 1]
  {
    GenuinePrev(h, g, k);
    assert EventLinkedAt(s, p) && DocumentedLink(g, k);
    if p > 0 { assert HashedAt(h, s, p - 1); }
    if p > 0 && k > 0 {
      assert HashedAt(h, g, k - 1);
      HashIdentifies(h, s[p - 1], g[k - 1]);
    }
  }

  /** A genuine event inside a walkable sequence pins down everything before it. */
  lemma {:induction false} PinnedPrefix(h: HashFn, s: seq<Event>, g: seq<Event>, p: nat, k: nat)
    requires Ideal(h) && Walkable(h, s) && Genuinely(h, g) && p < |s| && k < |g| && s[p] == g[k]
    ensures p == k && s[..k + 1] == g[..k + 1]
    decreases k
  {
    PinnedStep(h, s, g, p, k);
    if k > 0 {
      PinnedPrefix(h, s, g, p - 1, k - 1);
      assert s[..k + 1] == s[..k] + [s[k]] && g[..k + 1] == g[..k] + [g[k]];
    } else {
      assert s[..1] == [s[0]] && g[..1] == [g[0]];
    }
  }

  /** The event at `p` of a clean walk carries the hash of a committed event. */
  lemma FoundInWalk(h: HashFn, name: string, s: seq<Event>, head: Option<HeadPointer>, chain: map<Slot, Event>,
                    p: nat, k: nat)
    requires Ideal(h) && ChainOK(h, chain) && EventsClean(h, name, s, head)
    requires p < |s| && Slot(name, k) in chain && s[p].hash == chain[Slot(name, k)].hash
    ensures p == k && forall i :: 0 <= i < k + 1 ==> Slot(name, i) in chain
    ensures s[..k + 1] == Committed(chain, name, k + 1)
  {
    CommittedIsGenuine(h, chain, name, k);
    CleanIsWalkable(h, name, s, head);
    var g := Committed(chain, name, k + 1);
    assert HashedAt(h, s, p) && HashedAt(h, g, k);
    HashIdentifies(h, s[p], g[k]);
    PinnedPrefix(h, s, g, p, k);
    assert g[..k + 1] == g;
  }

  /** Whatever the store now holds: under an untouched head pointer of sequence `k`, a clean shard with events reaches
      at least to `k`, and one that ends there holds exactly the events committed up to it. */
  lemma VerifyIsExact(h: HashFn, sh: Shard, s: seq<Event>, chain: map<Slot, Event>, k: nat)
    requires Ideal(h) && ChainOK(h, chain) && OrderOf(sh, s) && ShardClean(h, sh, s) && s != []
    requires sh.head.Some? ==> sh.head.value.sequence == k
    requires Slot(sh.name, k) in chain && (sh.head.Some? ==> chain[Slot(sh.name, k)].hash == sh.head.value.hash)
    ensures sh.head.Some? && k <= s[|s| - 1].sequence
    ensures forall i :: 0 <= i < k + 1 ==> Slot(sh.name, i) in chain
    ensures s[|s| - 1].sequence == k ==>
              s == Committed(chain, sh.name, k + 1)
              && multiset(Events(sh.entries)) == multiset(Committed(chain, sh.name, k + 1))
  {
    CommittedIsGenuine(h, chain, sh.name, k);
    if s[|s| - 1].sequence == k {
      FoundInWalk(h, sh.name, s, sh.head, chain, |s| - 1, k);
      assert s[..k + 1] == s;
    }
  }

  // ---- deletion ----

  /** A sequence order of committed events that is clean is a run of them from the first on. */
  lemma CleanIsInitial(h: HashFn, name: string, s: seq<Event>, head: Option<HeadPointer>, chain: map<Slot, Event>)
    requires Ideal(h) && ChainOK(h, chain) && EventsClean(h, name, s, head) && s != []
    requires forall i :: 0 <= i < |s| ==> IsCommitted(chain, name, s[i])
    ensures forall k :: 0 <= k < |s| ==> Slot(name, k) in chain
    ensures s == Committed(chain, name, |s|) && s[|s| - 1].sequence == |s| - 1
  {
    var last := s[|s| - 1];
    assert IsCommitted(chain, name, last);
    assert EventOK(h, chain, Slot(name, last.sequence));
    FoundInWalk(h, name, s, head, chain, |s| - 1, last.sequence);
    assert s[..|s|] == s;
  }

  lemma InitialIsClean(h: HashFn, name: string, n: nat, hp: HeadPointer, chain: map<Slot, Event>)
    requires Ideal(h) && ChainOK(h, chain) && Slot(name, n) in chain && 0 <= hp.sequence <= n
    requires Slot(name, hp.sequence) in chain && chain[Slot(name, hp.sequence)].hash == hp.hash
    ensures forall k :: 0 <= k < n + 1 ==> Slot(name, k) in chain
    ensures EventsClean(h, name, Committed(chain, name, n + 1), Some(hp))
  {
    CommittedIsGenuine(h, chain, name, n);
    var g := Committed(chain, name, n + 1);
    forall i | 0 <= i < n + 1
      ensures Genuine(h, name, g[i]) && EventLinkedAt(g, i) && g[i].sequence == i
    {
      assert EventOK(h, chain, Slot(name, i));
      GenuineIsLinked(h, g, i);
    }
    HeadFitsTail(g, hp);
  }

  lemma GenuineIsLinked(h: HashFn, g: seq<Event>, i: nat)
    requires Ideal(h) && Genuinely(h, g) && i < |g|
    ensures EventLinkedAt(g, i)
  {
    GenuinePrev(h, g, i);
    assert DocumentedLink(g, i);
  }

  /** The first `n` committed events, of which the chain has so many. */
  ghost predicate IsInitial(s: seq<Event>, chain: map<Slot, Event>, name: string) {
    (forall k :: 0 <= k < |s| ==> Slot(name, k) in chain) && s == Committed(chain, name, |s|)
  }

  /** Deletion is noticed: with the head pointer of sequence `k` in place, what is left of a committed chain is clean
      exactly when everything up to `k` is still there, or nothing is left at all. */
  lemma DeletionIsNoticed(h: HashFn, sh: Shard, s: seq<Event>, chain: map<Slot, Event>, k: nat)
    requires Ideal(h) && ChainOK(h, chain) && OrderOf(sh, s)
    requires forall i :: 0 <= i < |sh.entries| ==> IsCommitted(chain, sh.name, sh.entries[i].event)
    requires sh.head.Some? && sh.head.value.sequence == k
    requires Slot(sh.name, k) in chain && chain[Slot(sh.name, k)].hash == sh.head.value.hash
    ensures ShardClean(h, sh, s) <==> s == [] || (k < |s| && IsInitial(s, chain, sh.name))
  {
    forall i | 0 <= i < |s|
      ensures IsCommitted(chain, sh.name, s[i])
    {
      assert s[i] in multiset(Events(sh.entries));
    }
    if s != [] && ShardClean(h, sh, s) {
      CleanIsInitial(h, sh.name, s, sh.head, chain);
    }
    if k < |s| && IsInitial(s, chain, sh.name) {
      InitialIsClean(h, sh.name, |s| - 1, sh.head.value, chain);
    }
  }

  // ---- anchors ----

  datatype AnchorVerdict = AnchorOK(at: nat) | TooShort | Missing | RewrittenInPlace | HashMismatch

  /** The last listed object whose key carries sequence `n`, and the highest sequence of any key. */
  method FindSequence(entries: seq<Entry>, seqOf: string -> Option<int>, n: int)
    returns (found: Option<nat>, top: int)
    ensures found.Some? ==> found.value < |entries| && seqOf(entries[found.value].key) == Some(n)
    ensures found.None? ==> forall j :: 0 <= j < |entries| ==> seqOf(entries[j].key) != Some(n)
    ensures forall j :: 0 <= j < |entries| && seqOf(entries[j].key).Some? ==> seqOf(entries[j].key).value <= top
    ensures top == -1 || exists j :: 0 <= j < |entries| && seqOf(entries[j].key) == Some(top)
  {
    found, top := None, -1;
    var i := 0;
    while i < |entries|
      invariant 0 <= i <= |entries|
      invariant found.Some? ==> found.value < i && seqOf(entries[found.value].key) == Some(n)
      invariant found.None? ==> forall j :: 0 <= j < i ==> seqOf(entries[j].key) != Some(n)
      invariant forall j :: 0 <= j < i && seqOf(entries[j].key).Some? ==> seqOf(entries[j].key).value <= top
      invariant top == -1 || exists j :: 0 <= j < i && seqOf(entries[j].key) == Some(top)
    {
      var m := seqOf(entries[i].key);
      if m.Some? {
        if m.value > top { top := m.value; }
        if m.value == n { found := Some(i); }
      }
      i := i + 1;
    }
  }

  /** VerifyAnchor: find the anchored event by the sequence in its key, recompute, compare. */
  method VerifyAnchor(h: HashFn, sh: Shard, a: Anchor) returns (r: AnchorVerdict)
    ensures r.AnchorOK? ==>
              && r.at < |sh.entries| && SeqFromKey(sh.entries[r.at].key) == Some(a.headSequence)
              && sh.entries[r.at].event.hash == ComputeHash(h, sh.entries[r.at].event) == a.headHash
    ensures r.TooShort? || r.Missing? <==>
              forall i :: 0 <= i < |sh.entries| ==> SeqFromKey(sh.entries[i].key) != Some(a.headSequence)
    ensures r.TooShort? ==>
              forall i :: 0 <= i < |sh.entries| && SeqFromKey(sh.entries[i].key).Some? ==>
                SeqFromKey(sh.entries[i].key).value < a.headSequence
    ensures r.Missing? ==>
              a.headSequence <= -1
              || exists i :: 0 <= i < |sh.entries| && SeqFromKey(sh.entries[i].key).Some?
                             && SeqFromKey(sh.entries[i].key).value > a.headSequence
    ensures (exists i :: 0 <= i < |sh.entries| && SeqFromKey(sh.entries[i].key) == Some(a.headSequence))
            && (forall i :: 0 <= i < |sh.entries| && SeqFromKey(sh.entries[i].key) == Some(a.headSequence) ==>
                  sh.entries[i].event.hash == ComputeHash(h, sh.entries[i].event) == a.headHash) ==>
              r.AnchorOK?
    ensures r.RewrittenInPlace? || r.HashMismatch? ==>
              exists i :: 0 <= i < |sh.entries| && SeqFromKey(sh.entries[i].key) == Some(a.headSequence)
                          && ComputeHash(h, sh.entries[i].event) != (if r.HashMismatch? then a.headHash
                                                                     else sh.entries[i].event.hash)
  {
    var found, top := FindSequence(sh.entries, SeqFromKey, a.headSequence);
    if found.None? {
      return if top < a.headSequence then TooShort else Missing;
    }
    var e := sh.entries[found.value].event;
    var recomputed := ComputeHash(h, e);
    if recomputed != e.hash {
      return RewrittenInPlace;
    }
    if recomputed != a.headHash {
      return HashMismatch;
    }
    r := AnchorOK(found.value);
  }

  /** The witnessed prefix: with a clean chain and a confirmed anchor of a genuine chain at sequence `k`, the
      first k + 1 events in sequence order are exactly the events 0 .. k that were originally committed. */
  lemma WitnessedPrefix(h: HashFn, sh: Shard, s: seq<Event>, chain: map<Slot, Event>, a: Anchor, k: nat, at: nat)
    requires Ideal(h) && ChainOK(h, chain) && OrderOf(sh, s) && ShardClean(h, sh, s)
    requires a.shard == sh.name && a.headSequence == k && Slot(sh.name, k) in chain
    requires chain[Slot(sh.name, k)].hash == a.headHash
    requires at < |sh.entries| && sh.entries[at].event.hash == a.headHash
    ensures k < |s| && forall i :: 0 <= i < k + 1 ==> Slot(sh.name, i) in chain
    ensures s[..k + 1] == Committed(chain, sh.name, k + 1)
  {
    var p := Position(sh, s, at);
    FoundInWalk(h, sh.name, s, sh.head, chain, p, k);
  }

  /** The shard begins with the events 0 .. k of the chain, in a sequence order of its events. */
  ghost predicate Witnessed(sh: Shard, chain: map<Slot, Event>, k: nat) {
    exists s :: OrderOf(sh, s) && BeginsWith(s, chain, sh.name, k)
  }

  ghost predicate BeginsWith(s: seq<Event>, chain: map<Slot, Event>, shard: string, k: nat) {
    && k < |s| && (forall i :: 0 <= i < k + 1 ==> Slot(shard, i) in chain)
    && s[..k + 1] == Committed(chain, shard, k + 1)
  }

  /** The anchor check on a shard that is clean in the order `s`. */
  method ConfirmWitness(h: HashFn, sh: Shard, a: Anchor, ghost s: seq<Event>, ghost chain: map<Slot, Event>)
    returns (ok: bool)
    requires Ideal(h) && OrderOf(sh, s) && ShardClean(h, sh, s) && a.shard == sh.name && a.headSequence >= 0
    requires ChainOK(h, chain) && Slot(a.shard, a.headSequence) in chain
    requires chain[Slot(a.shard, a.headSequence)].hash == a.headHash
    ensures ok ==> Witnessed(sh, chain, a.headSequence)
  {
    var v := VerifyAnchor(h, sh, a);
    ok := v.AnchorOK?;
    if ok {
      WitnessedPrefix(h, sh, s, chain, a, a.headSequence, v.at);
      assert BeginsWith(s, chain, sh.name, a.headSequence);
    }
  }

  /** Both checks together, as an operator runs them against whatever the store now holds: when the chain verifies
      and the anchor of a genuine chain is confirmed, the anchored shard begins with the events originally committed. */
  method CheckWitness(h: HashFn, shards: seq<Shard>, i: nat, a: Anchor, ghost chain: map<Slot, Event>)
    returns (ok: bool)
    requires Ideal(h) && i < |shards| && a.shard == shards[i].name && a.headSequence >= 0
    requires forall j :: 0 <= j < |shards| ==> Typed(shards[j])
    requires ChainOK(h, chain) && Slot(a.shard, a.headSequence) in chain
    requires chain[Slot(a.shard, a.headSequence)].hash == a.headHash
    ensures ok ==> Witnessed(shards[i], chain, a.headSequence)
  {
    ghost var orders;
    ok, orders := VerifyChain(h, shards);
    if ok {
      EachShard(h, shards, orders, i);
      ok := ConfirmWitness(h, shards[i], a, orders[i], chain);
    }
  }

  lemma Position(sh: Shard, s: seq<Event>, at: nat) returns (p: nat)
    requires OrderOf(sh, s) && at < |sh.entries|
    ensures p < |s| && s[p] == sh.entries[at].event
  {
    assert Events(sh.entries)[at] in multiset(Events(sh.entries));
    p :| 0 <= p < |s| && s[p] == sh.entries[at].event;
  }

  // ---- completeness ----

  /** The shard lists exactly the committed events of the chain, each once, under keys made by `keyOf`. */
  ghost predicate Lists(keyOf: Event -> string, sh: Shard, chain: map<Slot, Event>) {
    && (forall i :: 0 <= i < |sh.entries| ==>
          var en := sh.entries[i];
          en.key == keyOf(en.event) && IsCommitted(chain, sh.name, en.event))
    && (forall k :: Present(chain, sh.name, Events(sh.entries), k))
    && (forall i, j :: 0 <= i < j < |sh.entries| ==> sh.entries[i].key != sh.entries[j].key)
  }

  /** The event committed at sequence `k`, if there is one, is among `s`. */
  predicate Present(chain: map<Slot, Event>, shard: string, s: seq<Event>, k: int) {
    Slot(shard, k) in chain ==> chain[Slot(shard, k)] in s
  }

  predicate IsCommitted(chain: map<Slot, Event>, shard: string, e: Event) {
    Slot(shard, e.sequence) in chain && chain[Slot(shard, e.sequence)] == e
  }

  predicate Distinct(es: seq<Event>) {
    forall i, j :: 0 <= i < j < |es| ==> es[i] != es[j]
  }

  lemma ListedOnce(keyOf: Event -> string, sh: Shard, chain: map<Slot, Event>)
    requires Lists(keyOf, sh, chain)
    ensures Distinct(Events(sh.entries))
  {
    var es := Events(sh.entries);
    forall i, j | 0 <= i < j < |es|
      ensures es[i] != es[j]
    {
      assert sh.entries[i].key != sh.entries[j].key;
    }
  }

  lemma {:induction false} CountOnce(es: seq<Event>, e: Event)
    requires Distinct(es)
    ensures multiset(es)[e] <= 1
  {
    if es != [] {
      assert es == [es[0]] + es[1..];
      CountOnce(es[1..], e);
      if es[0] == e { assert e !in es[1..]; }
    }
  }

  lemma StaysDistinct(s: seq<Event>, es: seq<Event>)
    requires Distinct(es) && multiset(s) == multiset(es)
    ensures Distinct(s)
  {
    forall i, j | 0 <= i < j < |s|
      ensures s[i] != s[j]
    {
      CountOnce(es, s[i]);
      RemoveAt(s, i);
      assert (s[..i] + s[i + 1..])[j - 1] == s[j];
      assert s[j] in multiset(s[..i] + s[i + 1..]);
    }
  }

  /** `s` holds every committed event of the shard once, in sequence order. */
  ghost predicate Complete(chain: map<Slot, Event>, shard: string, s: seq<Event>) {
    && Ordered(s) && Distinct(s)
    && (forall i :: 0 <= i < |s| ==> IsCommitted(chain, shard, s[i]))
    && (forall k :: Present(chain, shard, s, k))
  }

  lemma OrderIsComplete(keyOf: Event -> string, sh: Shard, s: seq<Event>, chain: map<Slot, Event>)
    requires OrderOf(sh, s) && Lists(keyOf, sh, chain)
    ensures Complete(chain, sh.name, s)
  {
    ListedOnce(keyOf, sh, chain);
    StaysDistinct(s, Events(sh.entries));
    forall i | 0 <= i < |s|
      ensures IsCommitted(chain, sh.name, s[i])
    {
      assert s[i] in multiset(s);
      var j :| 0 <= j < |Events(sh.entries)| && Events(sh.entries)[j] == s[i];
    }
    forall k: int
      ensures Present(chain, sh.name, s, k)
    {
      assert Present(chain, sh.name, Events(sh.entries), k);
      if Slot(sh.name, k) in chain {
        assert chain[Slot(sh.name, k)] in multiset(Events(sh.entries));
        assert chain[Slot(sh.name, k)] in multiset(s);
      }
    }
  }

  /** Every committed sequence from 0 up to an event's own is found somewhere in `s`. */
  lemma FoundBelow(h: HashFn, chain: map<Slot, Event>, shard: string, s: seq<Event>, i: nat, k: nat) returns (p: nat)
    requires ChainOK(h, chain) && Complete(chain, shard, s) && i < |s| && k <= s[i].sequence
    ensures p < |s| && s[p].sequence == k
  {
    assert IsCommitted(chain, shard, s[i]);
    DownClosed(h, chain, shard, s[i].sequence, k);
    assert EventOK(h, chain, Slot(shard, k)) && Present(chain, shard, s, k);
    p :| 0 <= p < |s| && s[p] == chain[Slot(shard, k)];
  }

  lemma StrictlyAbove(chain: map<Slot, Event>, shard: string, s: seq<Event>, i: nat, j: nat)
    requires Complete(chain, shard, s) && i < j < |s|
    ensures s[i].sequence < s[j].sequence
  {
    assert IsCommitted(chain, shard, s[i]) && IsCommitted(chain, shard, s[j]);
  }

  lemma NotNegative(h: HashFn, chain: map<Slot, Event>, shard: string, s: seq<Event>, i: nat)
    requires ChainOK(h, chain) && Complete(chain, shard, s) && i < |s|
    ensures s[i].sequence >= 0
  {
    assert IsCommitted(chain, shard, s[i]) && EventOK(h, chain, Slot(shard, s[i].sequence));
  }

  function Numbers(s: seq<Event>): (ns: seq<int>)
    ensures |ns| == |s| && forall i :: 0 <= i < |s| ==> ns[i] == s[i].sequence
  {
    seq(|s|, i requires 0 <= i < |s| => s[i].sequence)
  }

  /** Increasing numbers without a gap below them count from 0. */
  lemma {:induction false} GaplessCounts(ns: seq<int>, i: nat)
    requires Increasing(ns) && i < |ns|
    requires forall j :: 0 <= j < |ns| ==> ns[j] >= 0
    requires forall j, k :: 0 <= j < |ns| && 0 <= k <= ns[j] ==> k in ns
    ensures ns[i] == i
  {
    if i > 0 { GaplessCounts(ns, i - 1); }
    assert ns[i] >= i;
    assert i as int in ns;
    var p :| 0 <= p < |ns| && ns[p] == i;
  }

  /** In sequence order the committed events are event 0, event 1, and so on. */
  lemma OrderIsChain(h: HashFn, chain: map<Slot, Event>, shard: string, s: seq<Event>, i: nat)
    requires ChainOK(h, chain) && Complete(chain, shard, s) && i < |s|
    ensures s[i].sequence == i
  {
    var ns := Numbers(s);
    forall a, b | 0 <= a < b < |ns|
      ensures ns[a] < ns[b]
    {
      StrictlyAbove(chain, shard, s, a, b);
    }
    forall j | 0 <= j < |ns|
      ensures ns[j] >= 0
    {
      NotNegative(h, chain, shard, s, j);
    }
    forall j, k | 0 <= j < |ns| && 0 <= k <= ns[j]
      ensures k in ns
    {
      var p := FoundBelow(h, chain, shard, s, j, k);
      assert ns[p] == k;
    }
    GaplessCounts(ns, i);
  }

  lemma ChainedAt(h: HashFn, chain: map<Slot, Event>, shard: string, s: seq<Event>, i: nat)
    requires Ideal(h) && ChainOK(h, chain) && Complete(chain, shard, s) && i < |s|
    ensures Genuine(h, shard, s[i]) && EventLinkedAt(s, i)
  {
    OrderIsChain(h, chain, shard, s, i);
    assert IsCommitted(chain, shard, s[i]) && EventOK(h, chain, Slot(shard, i));
    if i > 0 {
      OrderIsChain(h, chain, shard, s, i - 1);
      assert IsCommitted(chain, shard, s[i - 1]) && EventOK(h, chain, Slot(shard, i - 1));
    } else {
      GenesisHasNoNul();
    }
    UpToAbsent(s[i].prevHash, NUL);
  }

  /** Where a committed event stands in the order. */
  lemma FoundAt(h: HashFn, chain: map<Slot, Event>, shard: string, s: seq<Event>, k: int) returns (p: nat)
    requires ChainOK(h, chain) && Complete(chain, shard, s) && Slot(shard, k) in chain
    ensures p < |s| && s[p] == chain[Slot(shard, k)] && s[p].sequence == k
  {
    assert EventOK(h, chain, Slot(shard, k)) && Present(chain, shard, s, k);
    p :| 0 <= p < |s| && s[p] == chain[Slot(shard, k)];
  }

  lemma OwnPosition(h: HashFn, chain: map<Slot, Event>, shard: string, s: seq<Event>, k: int)
    requires ChainOK(h, chain) && Complete(chain, shard, s) && Slot(shard, k) in chain
    ensures 0 <= k < |s| && s[k].hash == chain[Slot(shard, k)].hash
  {
    var p := FoundAt(h, chain, shard, s, k);
    OrderIsChain(h, chain, shard, s, p);
  }

  lemma HeadFitsTail(s: seq<Event>, hp: HeadPointer)
    requires 0 <= hp.sequence < |s| && s[hp.sequence].hash == hp.hash && s[|s| - 1].sequence == |s| - 1
    ensures HeadFits(Some(hp), s[|s| - 1].sequence, s[|s| - 1].hash)
  {
  }

  lemma CompleteHead(h: HashFn, chain: map<Slot, Event>, shard: string, s: seq<Event>, hp: HeadPointer)
    requires ChainOK(h, chain) && Complete(chain, shard, s) && s != []
    requires Slot(shard, hp.sequence) in chain && chain[Slot(shard, hp.sequence)].hash == hp.hash
    ensures HeadFits(Some(hp), s[|s| - 1].sequence, s[|s| - 1].hash)
  {
    OwnPosition(h, chain, shard, s, hp.sequence);
    OrderIsChain(h, chain, shard, s, |s| - 1);
    HeadFitsTail(s, hp);
  }

  lemma CompleteLinks(h: HashFn, chain: map<Slot, Event>, shard: string, s: seq<Event>)
    requires Ideal(h) && ChainOK(h, chain) && Complete(chain, shard, s)
    ensures SelfConsistent(h, shard, s) && forall i :: 0 <= i < |s| ==> EventLinkedAt(s, i)
  {
    forall i | 0 <= i < |s|
      ensures Genuine(h, shard, s[i]) && EventLinkedAt(s, i)
    {
      ChainedAt(h, chain, shard, s, i);
    }
  }

  /** Every chain that appends alone have built, with its head pointer in place, verifies clean. */
  lemma VerifyIsComplete(h: HashFn, keyOf: Event -> string, sh: Shard, s: seq<Event>, chain: map<Slot, Event>,
                         heads: map<string, HeadPointer>)
    requires Ideal(h) && ChainOK(h, chain) && HeadsOK(chain, heads) && Lists(keyOf, sh, chain) && OrderOf(sh, s)
    requires s != [] ==> sh.name in heads && sh.head == Some(heads[sh.name])
    ensures ShardClean(h, sh, s)
  {
    OrderIsComplete(keyOf, sh, s, chain);
    CompleteLinks(h, chain, sh.name, s);
    if s != [] { CompleteHead(h, chain, sh.name, s, heads[sh.name]); }
  }

  /** Completeness over runs: whatever the interleaving of appends from an empty repository, every shard that
      has a head pointer verifies clean. */
  lemma RunsVerifyClean(h: HashFn, steps: seq<Step>, sh: Shard, s: seq<Event>)
    requires Ideal(h) && Exec(h, State(map[], map[], map[]), steps).Some?
    requires var st := Exec(h, State(map[], map[], map[]), steps).value;
             Lists(KeyFor, sh, st.events) && sh.name in st.heads && sh.head == Some(st.heads[sh.name])
    requires OrderOf(sh, s)
    ensures ShardClean(h, sh, s)
  {
    var start := State(map[], map[], map[]);
    AppendNeverForks(h, start, steps);
    var st := Exec(h, start, steps).value;
    VerifyIsComplete(h, KeyFor, sh, s, st.events, st.heads);
  }
}
