/** Search with bounded memory: the collected matches are compacted from time to time. */
module AuditSearch {
  import opened Common
  import opened Sorting
  import opened AuditEvents

  /** sortAuditEvents: by timestamp, then by ID. */
  predicate Before(a: Event, b: Event) {
    if a.timestamp != b.timestamp then a.timestamp < b.timestamp else StringLess(a.id, b.id)
  }

  function Direction(reverse: bool): Order<Event> {
    if reverse then Flip(Before) else Before
  }

  lemma BeforeIsOrder(reverse: bool)
    ensures StrictOrder(Direction(reverse))
  {
    forall a: Event
      ensures !Before(a, a)
    {
      StringTotal(a.id, a.id);
    }
    forall a, b, c | Before(a, b) && Before(b, c)
      ensures Before(a, c)
    {
      if a.timestamp == b.timestamp == c.timestamp { StringTransitive(a.id, b.id, c.id); }
    }
    FlipOrder(Before);
  }

  /** Events with distinct IDs are never tied. */
  lemma DistinctIdsSeparate(xs: seq<Event>)
    requires forall i, j :: 0 <= i < j < |xs| ==> xs[i].id != xs[j].id
    ensures Separates(Before, xs)
  {
    forall i, j | 0 <= i < j < |xs|
      ensures Before(xs[i], xs[j]) || Before(xs[j], xs[i])
    {
      StringTotal(xs[i].id, xs[j].id);
    }
  }

  function Matches(keep: Event -> bool, events: seq<Event>): (r: seq<Event>) {
    if events == [] then []
    else if keep(Last(events)) then Matches(keep, Front(events)) + [Last(events)]
    else Matches(keep, Front(events))
  }

  /** The simple form: sort every match, keep the first `limit` (all when it is not positive). */
  function Simple(reverse: bool, limit: int, matches: seq<Event>): seq<Event> {
    var all := Sort(Direction(reverse), matches);
    if limit > 0 then Take(limit, all) else all
  }

  /** What a search promises, in timestamps and IDs: the oldest `limit` matches, oldest first, or the newest, newest
      first; IDs order equal timestamps the same way. */
  ghost predicate Answers(matches: seq<Event>, limit: int, reverse: bool, r: seq<Event>) {
    && |r| == (if 0 < limit < |matches| then limit else |matches|)
    && multiset(r) <= multiset(matches)
    && (forall i, j :: 0 <= i < j < |r| ==>
          if reverse then r[i].timestamp >= r[j].timestamp else r[i].timestamp <= r[j].timestamp)
    && (forall i, j :: 0 <= i < j < |r| && r[i].timestamp == r[j].timestamp ==>
          if reverse then !StringLess(r[i].id, r[j].id) else !StringLess(r[j].id, r[i].id))
    && (forall x, i :: x in multiset(matches) - multiset(r) && 0 <= i < |r| ==>
          if reverse then r[i].timestamp >= x.timestamp else r[i].timestamp <= x.timestamp)
    && (forall x, i :: x in multiset(matches) - multiset(r) && 0 <= i < |r| && r[i].timestamp == x.timestamp ==>
          if reverse then !StringLess(r[i].id, x.id) else !StringLess(x.id, r[i].id))
  }

  lemma BeforeIsWeak(reverse: bool)
    ensures WeakOrder(Direction(reverse))
  {
    BeforeIsOrder(false);
    forall a, b, c | Before(a, c) && !Before(b, c)
      ensures Before(a, b)
    {
      StringTotal(b.id, c.id);
      if StringLess(a.id, c.id) && StringLess(c.id, b.id) { StringTransitive(a.id, c.id, b.id); }
    }
    forall a, b, c | Before(c, a) && !Before(c, b)
      ensures Before(b, a)
    {
      StringTotal(b.id, c.id);
      if StringLess(b.id, c.id) && StringLess(c.id, a.id) { StringTransitive(b.id, c.id, a.id); }
    }
  }

  /** What it means not to come before, in timestamps and IDs. */
  lemma NotBefore(reverse: bool, x: Event, y: Event)
    requires !Direction(reverse)(x, y)
    ensures if reverse then y.timestamp >= x.timestamp else y.timestamp <= x.timestamp
    ensures y.timestamp == x.timestamp ==> if reverse then !StringLess(y.id, x.id) else !StringLess(x.id, y.id)
  {
    assert if reverse then !Before(y, x) else !Before(x, y);
  }

  /** Matches in order, with nothing left out that comes before one of them, are the answer. */
  lemma InOrderAnswers(matches: seq<Event>, limit: int, reverse: bool, r: seq<Event>)
    requires |r| == (if 0 < limit < |matches| then limit else |matches|) && multiset(r) <= multiset(matches)
    requires NeverDescends(Direction(reverse), r)
    requires forall x, i :: x in multiset(matches) - multiset(r) && 0 <= i < |r| ==> !Direction(reverse)(x, r[i])
    ensures Answers(matches, limit, reverse, r)
  {
    forall i, j | 0 <= i < j < |r|
      ensures if reverse then r[i].timestamp >= r[j].timestamp else r[i].timestamp <= r[j].timestamp
      ensures r[i].timestamp == r[j].timestamp ==>
                if reverse then !StringLess(r[i].id, r[j].id) else !StringLess(r[j].id, r[i].id)
    {
      NotBefore(reverse, r[j], r[i]);
    }
    forall x, i | x in multiset(matches) - multiset(r) && 0 <= i < |r|
      ensures if reverse then r[i].timestamp >= x.timestamp else r[i].timestamp <= x.timestamp
      ensures r[i].timestamp == x.timestamp ==>
                if reverse then !StringLess(r[i].id, x.id) else !StringLess(x.id, r[i].id)
    {
      NotBefore(reverse, x, r[i]);
    }
  }

  // ---- the code ----

  method SortEvents(xs: seq<Event>) returns (r: seq<Event>)
    ensures multiset(r) == multiset(xs) && NeverDescends(Before, r)
    ensures Separates(Before, xs) ==> Ascends(Before, r)
  {
    r := Sort(Before, xs);
    SortElements(Before, xs);
    BeforeIsOrder(false);
    BeforeIsWeak(false);
    SortNeverDescends(Before, xs);
    if Separates(Before, xs) { SortAscends(Before, xs); }
  }

  /** In-place reversal by swapping from both ends. */
  method ReverseEvents(xs: seq<Event>) returns (r: seq<Event>)
    ensures r == Reversed(xs)
  {
    r := xs;
    var i, j := 0, |xs| - 1;
    while i < j
      invariant |r| == |xs| && 0 <= i <= j + 1 && i + j == |xs| - 1
      invariant forall k :: 0 <= k < i ==> r[k] == xs[|xs| - 1 - k]
      invariant forall k :: i <= k <= j ==> r[k] == xs[k]
      invariant forall k :: j < k < |xs| ==> r[k] == xs[|xs| - 1 - k]
    {
      r := r[i := r[j]][j := r[i]];
      i, j := i + 1, j - 1;
    }
  }

  lemma TrimKeepsFirst(xs: seq<Event>, asc: seq<Event>, limit: nat, reverse: bool)
    requires Separates(Before, xs) && Ascends(Before, asc) && multiset(asc) == multiset(xs) && limit <= |asc|
    ensures var r := if reverse then asc[|asc| - limit..] else asc[..limit];
            Take(limit, Sort(Direction(reverse), r)) == Take(limit, Sort(Direction(reverse), xs))
  {
    BeforeIsOrder(false);
    if reverse { TrimLast(Before, xs, asc, limit); } else { TrimFirst(Before, xs, asc, limit); }
  }

  lemma PartElements(xs: seq<Event>, k: nat)
    requires k <= |xs|
    ensures multiset(xs[..k]) <= multiset(xs) && multiset(xs[k..]) <= multiset(xs)
  {
    assert xs == xs[..k] + xs[k..];
  }

  /** Cutting at the near end of the direction keeps enough. */
  lemma TrimSuffices(asc: seq<Event>, limit: nat, reverse: bool, seen: seq<Event>)
    requires NeverDescends(Before, asc) && limit <= |asc| && Suffices(Direction(reverse), limit, asc, seen)
    ensures Suffices(Direction(reverse), limit, if reverse then asc[|asc| - limit..] else asc[..limit], seen)
  {
    BeforeIsWeak(reverse);
    if reverse {
      LastSuffice(Before, limit, asc, seen);
    } else {
      FirstSuffice(Before, limit, asc, seen);
    }
  }

  /** trimAuditMatches: what is held of `seen` is cut, and still tells the first `limit`. */
  method Trim(xs: seq<Event>, limit: nat, reverse: bool, ghost seen: seq<Event>) returns (r: seq<Event>)
    requires limit <= |xs| && Suffices(Direction(reverse), limit, xs, seen)
    ensures |r| == limit && multiset(r) <= multiset(xs) && Suffices(Direction(reverse), limit, r, seen)
    ensures Separates(Before, xs) ==>
              Take(limit, Sort(Direction(reverse), r)) == Take(limit, Sort(Direction(reverse), xs))
  {
    var asc := SortEvents(xs);
    assert |asc| == |multiset(asc)| == |multiset(xs)| == |xs|;
    SufficesPermuted(Direction(reverse), limit, xs, seen, asc);
    TrimSuffices(asc, limit, reverse, seen);
    PartElements(asc, if reverse then |asc| - limit else limit);
    r := if reverse then asc[|asc| - limit..] else asc[..limit];
    if Separates(Before, xs) { TrimKeepsFirst(xs, asc, limit, reverse); }
  }

  /** 2*f.Limit + 1024, computed in 64 bits: compaction happens when this many matches are held. */
  function Threshold(limit: int): int {
    Wrap64(2 * limit + 1024)
  }

  /** The threshold overflows and so many matches arrive that compaction slices beyond the list. */
  predicate Overruns(limit: int, n: nat) {
    limit > 0 && 2 * limit + 1024 >= TWO63 && n >= 1 && n >= Threshold(limit)
  }

  lemma ThresholdFits(limit: int)
    requires 0 < limit < TWO63
    ensures 2 * limit + 1024 < TWO63 ==> Threshold(limit) == 2 * limit + 1024
    ensures 2 * limit + 1024 >= TWO63 ==> Threshold(limit) <= 1022 < limit
  {
  }

  datatype Outcome = Found(events: seq<Event>) | Crashed

  /** What is still held tells the first `limit` of all matches so far. */
  ghost predicate Enough(reverse: bool, limit: int, held: seq<Event>, matches: seq<Event>) {
    if limit > 0 then Suffices(Direction(reverse), limit, held, matches) else held == matches
  }

  /** Without ties it also agrees with them on the first `limit`. */
  ghost predicate Agrees(reverse: bool, limit: int, held: seq<Event>, matches: seq<Event>) {
    if limit > 0 then Take(limit, Sort(Direction(reverse), held)) == Take(limit, Sort(Direction(reverse), matches))
    else held == matches
  }

  lemma HeldSeparates(held: seq<Event>, matches: seq<Event>)
    requires Separates(Before, matches) && multiset(held) <= multiset(matches)
    ensures Separates(Before, held)
  {
    BeforeIsOrder(false);
    SeparatesSome(Before, matches, held);
  }

  lemma PrefixSeparates(xs: seq<Event>, x: Event)
    requires Separates(Before, xs + [x])
    ensures Separates(Before, xs)
  {
    assert forall i :: 0 <= i < |xs| ==> (xs + [x])[i] == xs[i];
  }

  /** Where the scan stands when it holds `held` of the matches `seen`, out of `all` that there will be. */
  ghost predicate Holds(reverse: bool, limit: int, held: seq<Event>, seen: seq<Event>, all: seq<Event>) {
    && Enough(reverse, limit, held, seen) && |held| <= |seen| && !Overruns(limit, |held|)
    && (limit > 0 && 2 * limit + 1024 >= TWO63 ==> held == seen)
    && (Separates(Before, all) ==> Separates(Before, seen) && Agrees(reverse, limit, held, seen))
  }

  /** The callback of the scan: append, and compact when enough are held. */
  method Collect(held: seq<Event>, ev: Event, limit: int, reverse: bool, ghost seen: seq<Event>,
                 ghost all: seq<Event>)
    returns (r: Option<seq<Event>>)
    requires -TWO63 <= limit < TWO63 && Holds(reverse, limit, held, seen, all)
    requires Separates(Before, all) ==> Separates(Before, seen + [ev])
    ensures r.None? <==> Overruns(limit, |seen| + 1)
    ensures r.Some? ==> Holds(reverse, limit, r.value, seen + [ev], all)
  {
    var out := held + [ev];
    if limit > 0 { SufficesWithOneMore(Direction(reverse), limit, held, seen, ev); }
    if Separates(Before, all) && limit > 0 { SameFirst(Direction(reverse), held, seen, ev, limit); }
    if limit > 0 { ThresholdFits(limit); }
    if limit > 0 && |out| >= Threshold(limit) {
      if limit > |out| {
        return None;
      }
      if Separates(Before, all) { HeldSeparates(out, seen + [ev]); }
      out := Trim(out, limit, reverse, seen + [ev]);
    }
    r := Some(out);
  }

  lemma SortedBothWays(xs: seq<Event>, asc: seq<Event>)
    requires Separates(Before, xs) && Ascends(Before, asc) && multiset(asc) == multiset(xs)
    ensures Sort(Direction(false), xs) == asc && Sort(Direction(true), xs) == Reversed(asc)
  {
    BeforeIsOrder(false);
    SortUnique(Before, xs, asc);
    SortFlipped(Before, xs, asc);
  }

  lemma CutAnswers(asc: seq<Event>, limit: nat, reverse: bool, matches: seq<Event>)
    requires NeverDescends(Direction(reverse), asc) && 0 < limit <= |asc| && Suffices(Direction(reverse), limit, asc, matches)
    ensures Answers(matches, limit, reverse, asc[..limit])
  {
    BeforeIsWeak(reverse);
    FirstSuffice(Direction(reverse), limit, asc, matches);
    SizesOrdered(asc, matches);
    InOrderAnswers(matches, limit, reverse, asc[..limit]);
  }

  lemma AllAnswers(asc: seq<Event>, limit: int, reverse: bool, matches: seq<Event>)
    requires NeverDescends(Direction(reverse), asc) && multiset(asc) == multiset(matches) && (limit > 0 ==> |asc| <= limit)
    ensures Answers(matches, limit, reverse, asc)
  {
    assert |asc| == |multiset(asc)| == |multiset(matches)| == |matches|;
    InOrderAnswers(matches, limit, reverse, asc);
  }

  /** Enough matches in order, cut when there are more than `limit`, are the answer. */
  lemma OrderedAnswers(asc: seq<Event>, limit: int, reverse: bool, matches: seq<Event>)
    requires NeverDescends(Direction(reverse), asc)
    requires if limit > 0 then Suffices(Direction(reverse), limit, asc, matches) else multiset(asc) == multiset(matches)
    ensures Answers(matches, limit, reverse, if 0 < limit < |asc| then asc[..limit] else asc)
  {
    if 0 < limit <= |asc| {
      CutAnswers(asc, limit, reverse, matches);
      assert asc[..|asc|] == asc;
    } else {
      if limit > 0 { SameSizeSame(asc, matches); }
      AllAnswers(asc, limit, reverse, matches);
    }
  }

  lemma SizesOrdered(xs: seq<Event>, ys: seq<Event>)
    requires multiset(xs) <= multiset(ys)
    ensures |xs| <= |ys|
  {
    assert multiset(ys) == multiset(xs) + (multiset(ys) - multiset(xs));
    assert |multiset(ys)| == |multiset(xs)| + |multiset(ys) - multiset(xs)|;
  }

  lemma SameSizeSame(xs: seq<Event>, ys: seq<Event>)
    requires multiset(xs) <= multiset(ys) && |xs| == |ys|
    ensures multiset(xs) == multiset(ys)
  {
    assert multiset(ys) == multiset(xs) + (multiset(ys) - multiset(xs));
    assert |multiset(ys)| == |multiset(xs)| + |multiset(ys) - multiset(xs)|;
  }

  /** The final sort, reversed for the other direction. */
  method InDirection(held: seq<Event>, reverse: bool) returns (r: seq<Event>)
    ensures multiset(r) == multiset(held) && NeverDescends(Direction(reverse), r)
    ensures Separates(Before, held) ==> r == Sort(Direction(reverse), held)
  {
    r := SortEvents(held);
    if Separates(Before, held) { SortedBothWays(held, r); }
    if reverse {
      ReversedElements(r);
      ReversedNeverDescends(Before, r);
      r := ReverseEvents(r);
    }
  }

  /** Sorting, reversing and cutting what is held at the end. */
  method Finish(held: seq<Event>, limit: int, reverse: bool, ghost matches: seq<Event>) returns (r: seq<Event>)
    requires Enough(reverse, limit, held, matches)
    ensures Separates(Before, held) ==> r == Simple(reverse, limit, held)
    ensures Answers(matches, limit, reverse, r)
  {
    r := InDirection(held, reverse);
    if limit > 0 { SufficesPermuted(Direction(reverse), limit, held, matches, r); }
    OrderedAnswers(r, limit, reverse, matches);
    if limit > 0 && |r| > limit {
      r := r[..limit];
    }
  }

  lemma MatchesSnoc(keep: Event -> bool, events: seq<Event>, i: nat)
    requires i < |events|
    ensures Matches(keep, events[..i + 1])
         == if keep(events[i]) then Matches(keep, events[..i]) + [events[i]] else Matches(keep, events[..i])
  {
    assert Front(events[..i + 1]) == events[..i];
  }

  /** Matches so far are matches of the whole scan, so they are separated when those are. */
  lemma {:induction false} EarlierSeparates(keep: Event -> bool, events: seq<Event>, i: nat)
    requires i <= |events| && Separates(Before, Matches(keep, events))
    ensures Separates(Before, Matches(keep, events[..i]))
    decreases |events|
  {
    if i == |events| {
      assert events[..i] == events;
    } else {
      var front := Front(events);
      if keep(Last(events)) { PrefixSeparates(Matches(keep, front), Last(events)); }
      assert front[..i] == events[..i];
      EarlierSeparates(keep, front, i);
    }
  }

  lemma {:induction false} FewerMatches(keep: Event -> bool, events: seq<Event>, i: nat)
    requires i <= |events|
    ensures |Matches(keep, events[..i])| <= |Matches(keep, events)|
    decreases |events|
  {
    if i == |events| {
      assert events[..i] == events;
    } else {
      assert Front(events)[..i] == events[..i];
      FewerMatches(keep, Front(events), i);
    }
  }

  lemma HoldsNothing(reverse: bool, limit: int, all: seq<Event>)
    requires -TWO63 <= limit < TWO63
    ensures Holds(reverse, limit, [], [], all)
  {
  }

  /** The next event of the scan. */
  method ScanOne(held: seq<Event>, ev: Event, keep: Event -> bool, limit: int, reverse: bool, ghost seen: seq<Event>,
                 ghost seen': seq<Event>, ghost all: seq<Event>) returns (r: Option<seq<Event>>)
    requires -TWO63 <= limit < TWO63 && Holds(reverse, limit, held, seen, all)
    requires seen' == if keep(ev) then seen + [ev] else seen
    requires Separates(Before, all) ==> Separates(Before, seen')
    ensures r.None? ==> Overruns(limit, |seen'|)
    ensures r.Some? ==> Holds(reverse, limit, r.value, seen', all) && (!Overruns(limit, |seen|) ==> !Overruns(limit, |seen'|))
  {
    r := Some(held);
    if keep(ev) { r := Collect(held, ev, limit, reverse, seen, all); }
  }

  /** The scan: what is held at its end tells the answer, unless compaction ran out of the list. */
  method Gather(events: seq<Event>, keep: Event -> bool, limit: int, reverse: bool) returns (r: Option<seq<Event>>)
    requires -TWO63 <= limit < TWO63
    ensures r.None? <==> Overruns(limit, |Matches(keep, events)|)
    ensures r.Some? ==> Holds(reverse, limit, r.value, Matches(keep, events), Matches(keep, events))
  {
    ghost var all := Matches(keep, events);
    HoldsNothing(reverse, limit, all);
    var held: seq<Event> := [];
    ghost var seen: seq<Event> := [];
    var i := 0;
    while i < |events|
      invariant 0 <= i <= |events| && seen == Matches(keep, events[..i])
      invariant Holds(reverse, limit, held, seen, all) && !Overruns(limit, |seen|)
    {
      ghost var seen' := NextSeen(keep, events, i, seen);
      var next := ScanOne(held, events[i], keep, limit, reverse, seen, seen', all);
      if next.None? {
        StillOverruns(limit, |seen'|, |all|);
        return None;
      }
      held, seen := next.value, seen';
      i := i + 1;
    }
    assert events[..i] == events;
    r := Some(held);
  }

  /** The matches after one more event. */
  lemma NextSeen(keep: Event -> bool, events: seq<Event>, i: nat, seen: seq<Event>) returns (seen': seq<Event>)
    requires i < |events| && seen == Matches(keep, events[..i])
    ensures seen' == Matches(keep, events[..i + 1]) && seen' == if keep(events[i]) then seen + [events[i]] else seen
    ensures |seen'| <= |Matches(keep, events)|
    ensures Separates(Before, Matches(keep, events)) ==> Separates(Before, seen')
  {
    seen' := Matches(keep, events[..i + 1]);
    MatchesSnoc(keep, events, i);
    FewerMatches(keep, events, i + 1);
    if Separates(Before, Matches(keep, events)) { EarlierSeparates(keep, events, i + 1); }
  }

  lemma StillOverruns(limit: int, n: nat, m: nat)
    requires Overruns(limit, n) && n <= m
    ensures Overruns(limit, m)
  {
  }

  /** Search: the scan delivers `events` in any order.  The result is the oldest or newest `limit` matches, and the
      simple form's where no two matches tie, for every limit whose compaction threshold fits in 64 bits; beyond, the
      first compaction runs out of the list. */
  method Search(events: seq<Event>, keep: Event -> bool, limit: int, reverse: bool) returns (r: Outcome)
    requires -TWO63 <= limit < TWO63
    ensures r.Crashed? <==> Overruns(limit, |Matches(keep, events)|)
    ensures r.Found? ==> Answers(Matches(keep, events), limit, reverse, r.events)
    ensures r.Found? && Separates(Before, Matches(keep, events)) ==>
              r.events == Simple(reverse, limit, Matches(keep, events))
  {
    var held := Gather(events, keep, limit, reverse);
    if held.None? {
      return Crashed;
    }
    ghost var all := Matches(keep, events);
    var found := Finish(held.value, limit, reverse, all);
    if Separates(Before, all) { HeldSeparates(held.value, all); }
    r := Found(found);
  }
}
