/** Lock-free append onto the sharded hash chain.

    Any number of appenders race through conditional puts.  The head pointer is only a hint: what an appender
    starts from may be any committed event of its shard, or nothing. */
module AuditAppend {
  import opened Common
  import opened AuditEvents

  /** The storage key of an event, see AuditEvents.KeyInjective. */
  datatype Slot = Slot(shard: string, seq_: int)

  datatype HeadPointer = HeadPointer(sequence: int, hash: string, eventId: string, key: Slot)

  const MAX_APPEND_ATTEMPTS: nat := 1024

  /** What an appended event says is what its caller said; only number, link and hash are the log's. */
  predicate CarriesOver(draft: Event, e: Event) {
    && e.schema == draft.schema && e.id == draft.id && e.timestamp == draft.timestamp && e.actor == draft.actor
    && e.tenant == draft.tenant && e.action == draft.action && e.subject == draft.subject && e.body == draft.body
  }

  /** The event as it is written: linked, numbered and hashed. */
  function Finalize(h: HashFn, draft: Event, n: int, prev: string): (e: Event)
    ensures e.hash == ComputeHash(h, e) && e.sequence == n && e.prevHash == prev && ShardKey(e) == ShardKey(draft)
    ensures CarriesOver(draft, e)
  {
    var linked := draft.(sequence := n, prevHash := prev, hash := "");
    linked.(hash := h(linked))
  }

  /** relink: continue behind the winner, and in any case behind the slot that was taken. */
  function Relink(winner: Event, n: int): (next: int)
    ensures next > n
  {
    if winner.sequence + 1 > n then winner.sequence + 1 else n + 1
  }

  // ---- the chain ----

  /** The hash that an event at slot `n` must carry as PrevHash. */
  predicate LinksTo(events: map<Slot, Event>, shard: string, n: int, prev: string) {
    if n == 0 then prev == GENESIS
    else n > 0 && Slot(shard, n - 1) in events && events[Slot(shard, n - 1)].hash == prev
  }

  predicate EventOK(h: HashFn, events: map<Slot, Event>, sl: Slot)
    requires sl in events
  {
    var e := events[sl];
    && e.sequence == sl.seq_ && ShardKey(e) == sl.shard && e.hash == ComputeHash(h, e)
    && LinksTo(events, sl.shard, sl.seq_, e.prevHash)
  }

  ghost predicate ChainOK(h: HashFn, events: map<Slot, Event>) {
    forall sl {:trigger EventOK(h, events, sl)} :: sl in events ==> EventOK(h, events, sl)
  }

  ghost predicate HeadsOK(events: map<Slot, Event>, heads: map<string, HeadPointer>) {
    forall shard :: shard in heads ==>
      var hp := heads[shard];
      hp.key == Slot(shard, hp.sequence) && hp.key in events && events[hp.key].hash == hp.hash
  }

  /** Committed events stay. */
  ghost predicate Grown(before: map<Slot, Event>, after: map<Slot, Event>) {
    forall sl :: sl in before ==> sl in after && after[sl] == before[sl]
  }

  function Seqs(events: map<Slot, Event>, shard: string): set<int> {
    set sl | sl in events.Keys && sl.shard == shard :: sl.seq_
  }

  function Length(events: map<Slot, Event>, shard: string): nat {
    |Seqs(events, shard)|
  }

  function Below(n: nat): (r: set<int>)
    ensures |r| == n && forall i :: i in r <==> 0 <= i < n
  {
    if n == 0 then {} else Below(n - 1) + {n - 1}
  }

  lemma SubsetSize(a: set<int>, b: set<int>)
    requires a <= b
    ensures |a| <= |b|
    ensures |a| == |b| ==> a == b
  {
    assert b == a + (b - a);
    assert |b| == |a| + |b - a|;
  }

  lemma {:induction false} DownClosed(h: HashFn, events: map<Slot, Event>, shard: string, n: int, k: int)
    requires ChainOK(h, events) && Slot(shard, n) in events && 0 <= k <= n
    ensures Slot(shard, k) in events
    decreases n
  {
    assert EventOK(h, events, Slot(shard, n));
    if k < n { DownClosed(h, events, shard, n - 1, k); }
  }

  /** The occupied sequences of a shard are exactly 0 .. n-1. */
  lemma ShardIsInterval(h: HashFn, events: map<Slot, Event>, shard: string, k: int)
    requires ChainOK(h, events)
    ensures Slot(shard, k) in events <==> 0 <= k < Length(events, shard)
  {
    var all := Seqs(events, shard);
    if Slot(shard, k) in events {
      assert EventOK(h, events, Slot(shard, k));
      forall i | i in Below(k + 1)
        ensures i in all
      {
        DownClosed(h, events, shard, k, i);
        assert Slot(shard, i) in events.Keys;
      }
      SubsetSize(Below(k + 1), all);
    } else if 0 <= k {
      forall i | i in all
        ensures i in Below(k)
      {
        assert EventOK(h, events, Slot(shard, i));
        if i >= k { DownClosed(h, events, shard, i, k); }
      }
      SubsetSize(all, Below(k));
    }
  }

  /** Writing a linked event into the next free slot keeps the chain. */
  lemma CommitKeepsChain(h: HashFn, events: map<Slot, Event>, draft: Event, n: int, prev: string)
    requires ChainOK(h, events) && LinksTo(events, ShardKey(draft), n, prev)
    requires Slot(ShardKey(draft), n) !in events
    ensures ChainOK(h, events[Slot(ShardKey(draft), n) := Finalize(h, draft, n, prev)])
  {
    var sl := Slot(ShardKey(draft), n);
    var events' := events[sl := Finalize(h, draft, n, prev)];
    forall x | x in events'
      ensures EventOK(h, events', x)
    {
      if x != sl { assert EventOK(h, events, x); }
    }
  }

  // ---- the transition system ----

  datatype Phase =
    | Looking
    | Trying(prev: string, n: int, attempt: nat)
    | Collided(n: int, attempt: nat)
    | Committed(n: int, prev: string)
    | Ended
    | GaveUp

  /** One Append call; `tried` lists the slots it has put to. */
  datatype Appender = Appender(draft: Event, phase: Phase, tried: seq<int>)

  datatype State = State(events: map<Slot, Event>, heads: map<string, HeadPointer>, apps: map<nat, Appender>)

  datatype Step =
    | Begin(a: nat, draft: Event)
    | Look(a: nat, found: Option<int>)  // head(): any committed event of the shard, or none
    | Put(a: nat)
    | ReadWinner(a: nat)
    | WriteHead(a: nat)
    | Stop(a: nat)                      // an error return or a crash
    | LoseHead(shard: string)

  function Apply(h: HashFn, s: State, step: Step): Option<State> {
    match step
    case LoseHead(shard) => Some(s.(heads := s.heads - {shard}))
    case Begin(a, draft) =>
      if a in s.apps || draft.action == "" then None
      else Some(s.(apps := s.apps[a := Appender(draft, Looking, [])]))
    case Look(a, found) =>
      if a !in s.apps || !s.apps[a].phase.Looking? then None
      else if found.None? then Some(s.(apps := s.apps[a := s.apps[a].(phase := Trying(GENESIS, 0, 0))]))
      else
        var sl := Slot(ShardKey(s.apps[a].draft), found.value);
        if sl !in s.events then None
        else
          var e := s.events[sl];
          Some(s.(apps := s.apps[a := s.apps[a].(phase := Trying(e.hash, e.sequence + 1, 0))]))
    case Put(a) =>
      if a !in s.apps || !s.apps[a].phase.Trying? then None
      else
        var x, p := s.apps[a], s.apps[a].phase;
        var sl := Slot(ShardKey(x.draft), p.n);
        if p.attempt >= MAX_APPEND_ATTEMPTS then Some(s.(apps := s.apps[a := x.(phase := GaveUp)]))
        else if sl in s.events then
          Some(s.(apps := s.apps[a := x.(phase := Collided(p.n, p.attempt), tried := x.tried + [p.n])]))
        else
          Some(s.(events := s.events[sl := Finalize(h, x.draft, p.n, p.prev)],
                  apps := s.apps[a := x.(phase := Committed(p.n, p.prev), tried := x.tried + [p.n])]))
    case ReadWinner(a) =>
      if a !in s.apps || !s.apps[a].phase.Collided? then None
      else
        var x, p := s.apps[a], s.apps[a].phase;
        var sl := Slot(ShardKey(x.draft), p.n);
        if sl !in s.events then None
        else
          var w := s.events[sl];
          Some(s.(apps := s.apps[a := x.(phase := Trying(w.hash, Relink(w, p.n), p.attempt + 1))]))
    case WriteHead(a) =>
      if a !in s.apps || !s.apps[a].phase.Committed? then None
      else
        var x, p := s.apps[a], s.apps[a].phase;
        var sl := Slot(ShardKey(x.draft), p.n);
        var e := Finalize(h, x.draft, p.n, p.prev);
        Some(s.(heads := s.heads[sl.shard := HeadPointer(p.n, e.hash, e.id, sl)],
                apps := s.apps[a := x.(phase := Ended)]))
    case Stop(a) =>
      if a !in s.apps || s.apps[a].phase.GaveUp? then None
      else Some(s.(apps := s.apps[a := s.apps[a].(phase := Ended)]))
  }

  /** The state after a run that starts from `s`. */
  function Exec(h: HashFn, s: State, steps: seq<Step>): Option<State> {
    if steps == [] then Some(s)
    else
      var before := Exec(h, s, steps[..|steps| - 1]);
      if before.None? then None else Apply(h, before.value, steps[|steps| - 1])
  }

  predicate Increasing(xs: seq<int>) {
    forall i, j :: 0 <= i < j < |xs| ==> xs[i] < xs[j]
  }

  /** Slots are tried in strictly increasing order and at most 1024 of them. */
  ghost predicate Paced(x: Appender) {
    && Increasing(x.tried) && |x.tried| <= MAX_APPEND_ATTEMPTS
    && match x.phase
       case Looking => x.tried == []
       case Trying(_, n, attempt) => |x.tried| == attempt && forall t :: t in x.tried ==> t < n
       case Collided(n, attempt) => |x.tried| == attempt + 1 && x.tried[attempt] == n
       case _ => true
  }

  lemma IncreasingSnoc(xs: seq<int>, n: int)
    requires Increasing(xs) && forall t :: t in xs ==> t < n
    ensures Increasing(xs + [n])
  {
    forall i, j | 0 <= i < j < |xs + [n]|
      ensures (xs + [n])[i] < (xs + [n])[j]
    {
      assert xs[i] in xs;
    }
  }

  lemma LastIsLargest(xs: seq<int>, t: int)
    requires Increasing(xs) && t in xs
    ensures t <= xs[|xs| - 1]
  {
    var i :| 0 <= i < |xs| && xs[i] == t;
    assert i < |xs| - 1 ==> xs[i] < xs[|xs| - 1];
  }

  lemma StepKeepsPace(h: HashFn, s: State, step: Step, a: nat)
    requires Apply(h, s, step).Some? && a in Apply(h, s, step).value.apps
    requires a in s.apps ==> Paced(s.apps[a])
    ensures Paced(Apply(h, s, step).value.apps[a])
  {
    if a in s.apps {
      var x := s.apps[a];
      if step == Put(a) {
        IncreasingSnoc(x.tried, x.phase.n);
      } else if step == ReadWinner(a) {
        forall t | t in x.tried
          ensures t <= x.phase.n
        {
          LastIsLargest(x.tried, t);
        }
      }
    }
  }

  /** From any store whatsoever, even one whose bodies disagree with their keys. */
  lemma {:induction false} AppendsAreBounded(h: HashFn, s: State, steps: seq<Step>, a: nat)
    requires s.apps == map[] && Exec(h, s, steps).Some? && a in Exec(h, s, steps).value.apps
    ensures Increasing(Exec(h, s, steps).value.apps[a].tried)
    ensures |Exec(h, s, steps).value.apps[a].tried| <= MAX_APPEND_ATTEMPTS
    ensures Paced(Exec(h, s, steps).value.apps[a])
  {
    if steps != [] {
      var before := steps[..|steps| - 1];
      var t := Exec(h, s, before).value;
      if a in t.apps { AppendsAreBounded(h, s, before, a); }
      StepKeepsPace(h, t, steps[|steps| - 1], a);
    }
  }

  ghost predicate PhaseOK(h: HashFn, s: State, x: Appender) {
    var shard := ShardKey(x.draft);
    match x.phase
    case Trying(prev, n, _) => LinksTo(s.events, shard, n, prev)
    case Collided(n, _) => Slot(shard, n) in s.events
    case Committed(n, prev) =>
      Slot(shard, n) in s.events && s.events[Slot(shard, n)] == Finalize(h, x.draft, n, prev)
    case _ => true
  }

  ghost predicate Inv(h: HashFn, s: State) {
    && ChainOK(h, s.events)
    && HeadsOK(s.events, s.heads)
    && forall a :: a in s.apps ==> PhaseOK(h, s, s.apps[a])
  }

  lemma StepGrows(h: HashFn, s: State, step: Step)
    requires Apply(h, s, step).Some?
    ensures Grown(s.events, Apply(h, s, step).value.events)
  {
  }

  lemma PutKeepsInv(h: HashFn, s: State, a: nat)
    requires Inv(h, s) && Apply(h, s, Put(a)).Some?
    ensures Inv(h, Apply(h, s, Put(a)).value)
  {
    var s' := Apply(h, s, Put(a)).value;
    var x := s.apps[a];
    assert PhaseOK(h, s, x);
    if s'.events != s.events { CommitKeepsChain(h, s.events, x.draft, x.phase.n, x.phase.prev); }
    StepGrows(h, s, Put(a));
    forall b | b in s'.apps
      ensures PhaseOK(h, s', s'.apps[b])
    {
      if b != a { assert PhaseOK(h, s, s.apps[b]); }
    }
  }

  lemma MoveKeepsInv(h: HashFn, s: State, s': State, a: nat)
    requires Inv(h, s) && s'.events == s.events && HeadsOK(s'.events, s'.heads)
    requires a in s'.apps && s'.apps == s.apps[a := s'.apps[a]] && PhaseOK(h, s, s'.apps[a])
    ensures Inv(h, s')
  {
    forall b | b in s'.apps
      ensures PhaseOK(h, s', s'.apps[b])
    {
      if b != a { assert PhaseOK(h, s, s.apps[b]); }
    }
  }

  /** Behind any committed event there is a slot to continue at. */
  lemma LinksBehind(h: HashFn, events: map<Slot, Event>, shard: string, k: int)
    requires ChainOK(h, events) && Slot(shard, k) in events
    ensures events[Slot(shard, k)].sequence == k && LinksTo(events, shard, k + 1, events[Slot(shard, k)].hash)
  {
    assert EventOK(h, events, Slot(shard, k));
  }

  lemma LookOK(h: HashFn, s: State, a: nat, found: Option<int>)
    requires ChainOK(h, s.events) && Apply(h, s, Look(a, found)).Some?
    ensures PhaseOK(h, s, Apply(h, s, Look(a, found)).value.apps[a])
  {
    if found.Some? { LinksBehind(h, s.events, ShardKey(s.apps[a].draft), found.value); }
  }

  lemma WinnerOK(h: HashFn, s: State, a: nat)
    requires ChainOK(h, s.events) && Apply(h, s, ReadWinner(a)).Some?
    ensures PhaseOK(h, s, Apply(h, s, ReadWinner(a)).value.apps[a])
  {
    LinksBehind(h, s.events, ShardKey(s.apps[a].draft), s.apps[a].phase.n);
  }

  lemma StepKeepsInv(h: HashFn, s: State, step: Step)
    requires Inv(h, s) && Apply(h, s, step).Some?
    ensures Inv(h, Apply(h, s, step).value)
  {
    var s' := Apply(h, s, step).value;
    match step
    case Put(a) => PutKeepsInv(h, s, a);
    case LoseHead(_) =>
      forall b | b in s'.apps
        ensures PhaseOK(h, s', s'.apps[b])
      {
        assert PhaseOK(h, s, s.apps[b]);
      }
    case WriteHead(a) => HeadKeepsInv(h, s, a);
    case Begin(a, _) => MoveKeepsInv(h, s, s', a);
    case Stop(a) => MoveKeepsInv(h, s, s', a);
    case Look(a, found) => LookOK(h, s, a, found); MoveKeepsInv(h, s, s', a);
    case ReadWinner(a) => WinnerOK(h, s, a); MoveKeepsInv(h, s, s', a);
  }

  lemma HeadKeepsInv(h: HashFn, s: State, a: nat)
    requires Inv(h, s) && Apply(h, s, WriteHead(a)).Some?
    ensures Inv(h, Apply(h, s, WriteHead(a)).value)
  {
    assert PhaseOK(h, s, s.apps[a]);
    MoveKeepsInv(h, s, Apply(h, s, WriteHead(a)).value, a);
  }

  /** No interleaving of appenders forks the chain, and no committed event ever changes. */
  lemma {:induction false} AppendNeverForks(h: HashFn, s: State, steps: seq<Step>)
    requires ChainOK(h, s.events) && HeadsOK(s.events, s.heads) && s.apps == map[] && Exec(h, s, steps).Some?
    ensures Inv(h, Exec(h, s, steps).value)
    ensures Grown(s.events, Exec(h, s, steps).value.events)
  {
    if steps != [] {
      var before := steps[..|steps| - 1];
      AppendNeverForks(h, s, before);
      StepKeepsInv(h, Exec(h, s, before).value, steps[|steps| - 1]);
      StepGrows(h, Exec(h, s, before).value, steps[|steps| - 1]);
    }
  }

  /** A committed append is found in its slot, linked to its predecessor, in every later state. */
  lemma CommitIsDurable(h: HashFn, s: State, steps: seq<Step>, n: nat, a: nat)
    requires ChainOK(h, s.events) && HeadsOK(s.events, s.heads) && s.apps == map[]
    requires n <= |steps| && Exec(h, s, steps).Some? && Exec(h, s, steps[..n]).Some?
    requires var t := Exec(h, s, steps[..n]).value; a in t.apps && t.apps[a].phase.Committed?
    ensures var x := Exec(h, s, steps[..n]).value.apps[a];
            var sl, events := Slot(ShardKey(x.draft), x.phase.n), Exec(h, s, steps).value.events;
            && sl in events && events[sl] == Finalize(h, x.draft, x.phase.n, x.phase.prev) && EventOK(h, events, sl)
            && CarriesOver(x.draft, events[sl])
  {
    AppendNeverForks(h, s, steps);
    AppendNeverForks(h, s, steps[..n]);
    var t := Exec(h, s, steps[..n]).value;
    assert PhaseOK(h, t, t.apps[a]);
    GrownSince(h, s, steps, n);
  }

  lemma {:induction false} GrownSince(h: HashFn, s: State, steps: seq<Step>, n: nat)
    requires n <= |steps| && Exec(h, s, steps).Some? && Exec(h, s, steps[..n]).Some?
    ensures Grown(Exec(h, s, steps[..n]).value.events, Exec(h, s, steps).value.events)
    decreases |steps|
  {
    if n == |steps| {
      assert steps[..n] == steps;
    } else {
      var before := steps[..|steps| - 1];
      assert before[..n] == steps[..n];
      GrownSince(h, s, before, n);
      StepGrows(h, Exec(h, s, before).value, steps[|steps| - 1]);
    }
  }

  /** A lone appender commits behind the last event of its shard, in one attempt when it found that event. */
  lemma LoneAppendCommits(h: HashFn, s: State, a: nat, draft: Event, found: Option<int>)
    requires a !in s.apps && draft.action != "" && ChainOK(h, s.events)
    requires var n, shard := Length(s.events, ShardKey(draft)), ShardKey(draft);
             found == if n == 0 then None else Some(n - 1)
    ensures var shard, n := ShardKey(draft), Length(s.events, ShardKey(draft));
            var prev := if n == 0 then GENESIS else EventHash(s.events, Slot(shard, n - 1));
            && Apply(h, s, Begin(a, draft)).Some?
            && var begun := Apply(h, s, Begin(a, draft)).value;
            && Apply(h, begun, Look(a, found)).Some?
            && var looked := Apply(h, begun, Look(a, found)).value;
            && Apply(h, looked, Put(a)).Some?
            && Apply(h, looked, Put(a)).value.events == s.events[Slot(shard, n) := Finalize(h, draft, n, prev)]
            && CarriesOver(draft, Apply(h, looked, Put(a)).value.events[Slot(shard, n)])
  {
    var shard, n := ShardKey(draft), Length(s.events, ShardKey(draft));
    ShardIsInterval(h, s.events, shard, n);
    if n > 0 {
      ShardIsInterval(h, s.events, shard, n - 1);
      LinksBehind(h, s.events, shard, n - 1);
    }
  }

  function EventHash(events: map<Slot, Event>, sl: Slot): string {
    if sl in events then events[sl].hash else ""
  }

  // ---- the code of one append among others ----

  datatype Result = Appended(n: int, prev: string) | FieldError | Exhausted

  /** The audit prefix of a repository.  Between any two steps of one call other appenders may commit. */
  class Log {
    const h: HashFn
    var events: map<Slot, Event>
    var heads: map<string, HeadPointer>

    constructor (h: HashFn)
      ensures this.h == h && events == map[] && heads == map[]
    {
      this.h, events, heads := h, map[], map[];
    }

    ghost predicate Valid()
      reads this
    {
      ChainOK(h, events) && HeadsOK(events, heads)
    }

    /** What other appenders may do: extend the chain and rewrite or lose head pointers. */
    method Others()
      requires Valid()
      modifies this
      ensures Valid() && Grown(old(events), events)
    {
    }

    /** The head record of a shard names a stored event with that hash and sequence. */
    predicate PointerHolds(shard: string)
      reads this
    {
      && shard in heads && heads[shard].key in events
      && events[heads[shard].key].hash == heads[shard].hash
      && events[heads[shard].key].sequence == heads[shard].sequence
    }

    /** head(): the event that the head record names when the two agree; else, whatever that record says, the event of
        highest sequence, and none only for an empty shard. */
    method Head(shard: string) returns (e: Option<Event>)
      requires ChainOK(h, events)
      ensures PointerHolds(shard) ==> e == Some(events[heads[shard].key])
      ensures !PointerHolds(shard) ==> (e.None? <==> forall k :: Slot(shard, k) !in events)
      ensures !PointerHolds(shard) && e.Some? ==>
                && Slot(shard, e.value.sequence) in events && events[Slot(shard, e.value.sequence)] == e.value
                && forall k :: Slot(shard, k) in events ==> k <= e.value.sequence
    {
      if shard in heads && heads[shard].key in events {
        var hp := heads[shard];
        var ev := events[hp.key];
        if ev.hash == hp.hash && ev.sequence == hp.sequence {
          return Some(ev);
        }
      }
      var todo := set sl | sl in events.Keys && sl.shard == shard;
      var tail := None;
      while todo != {}
        invariant todo <= events.Keys && forall sl :: sl in todo ==> sl.shard == shard
        invariant tail.Some? ==> tail.value in events && tail.value.shard == shard
        invariant tail.None? ==> forall sl :: sl in events && sl.shard == shard ==> sl in todo
        invariant tail.Some? ==> forall sl :: sl in events && sl.shard == shard && sl !in todo ==> sl.seq_ <= tail.value.seq_
        decreases todo
      {
        var sl :| sl in todo;
        if tail.None? || sl.seq_ > tail.value.seq_ { tail := Some(sl); }
        todo := todo - {sl};
      }
      if tail.None? {
        return None;
      }
      assert EventOK(h, events, tail.value);
      e := Some(events[tail.value]);
    }

    /** The conditional put of one attempt. */
    method TryPut(draft: Event, n: int, prev: string) returns (won: bool)
      requires Valid() && LinksTo(events, ShardKey(draft), n, prev)
      modifies this`events
      ensures Valid() && Grown(old(events), events)
      ensures won <==> Slot(ShardKey(draft), n) !in old(events)
      ensures Slot(ShardKey(draft), n) in events
      ensures won ==> events[Slot(ShardKey(draft), n)] == Finalize(h, draft, n, prev)
      ensures won ==> CarriesOver(draft, events[Slot(ShardKey(draft), n)])
    {
      var sl := Slot(ShardKey(draft), n);
      won := sl !in events;
      if won {
        CommitKeepsChain(h, events, draft, n, prev);
        events := events[sl := Finalize(h, draft, n, prev)];
      }
    }

    /** Behind the winner of slot `n`. */
    method NextSlot(shard: string, n: int) returns (prev: string, next: int)
      requires Valid() && Slot(shard, n) in events
      ensures next > n && LinksTo(events, shard, next, prev)
    {
      var winner := events[Slot(shard, n)];
      assert EventOK(h, events, Slot(shard, n));
      prev, next := winner.hash, Relink(winner, n);
    }

    method FirstSlot(shard: string) returns (prev: string, n: int)
      requires Valid()
      ensures LinksTo(events, shard, n, prev)
    {
      var start := Head(shard);
      prev, n := GENESIS, 0;
      if start.Some? {
        if PointerHolds(shard) { assert EventOK(h, events, heads[shard].key); }
        assert EventOK(h, events, Slot(shard, start.value.sequence));
        prev, n := start.value.hash, start.value.sequence + 1;
      }
    }

    /** writeHeadPointer after a won slot. */
    method PointHead(shard: string, n: int, id: string)
      requires Valid() && Slot(shard, n) in events
      modifies this`heads
      ensures Valid()
      ensures heads == old(heads)[shard := HeadPointer(n, events[Slot(shard, n)].hash, id, Slot(shard, n))]
    {
      heads := heads[shard := HeadPointer(n, events[Slot(shard, n)].hash, id, Slot(shard, n))];
    }

    method Append(draft: Event) returns (r: Result)
      requires Valid()
      modifies this
      ensures Valid() && Grown(old(events), events)
      ensures r.FieldError? <==> draft.action == ""
      ensures r.Appended? ==>
                var sl := Slot(ShardKey(draft), r.n);
                && sl !in old(events) && sl in events && events[sl] == Finalize(h, draft, r.n, r.prev)
                && CarriesOver(draft, events[sl]) && events[sl].hash == ComputeHash(h, events[sl])
                && LinksTo(events, sl.shard, r.n, r.prev)
                && sl.shard in heads && heads[sl.shard] == HeadPointer(r.n, events[sl].hash, draft.id, sl)
      ensures r.Exhausted? ==> Length(events, ShardKey(draft)) >= MAX_APPEND_ATTEMPTS
    {
      if draft.action == "" {
        return FieldError;
      }
      var shard := ShardKey(draft);
      var prev, n := FirstSlot(shard);
      var attempt := 0;
      while true
        invariant Valid() && Grown(old(events), events)
        invariant LinksTo(events, shard, n, prev)
        invariant attempt <= MAX_APPEND_ATTEMPTS && attempt <= n
        decreases MAX_APPEND_ATTEMPTS - attempt
      {
        if attempt >= MAX_APPEND_ATTEMPTS {
          ShardIsInterval(h, events, shard, n - 1);
          return Exhausted;
        }
        Others();
        var won := TryPut(draft, n, prev);
        Others();
        if won {
          PointHead(shard, n, draft.id);
          return Appended(n, prev);
        }
        prev, n := NextSlot(shard, n);
        attempt := attempt + 1;
      }
    }
  }
}
