/** Building blocks for concrete runs: what a lone actor, or a pair of them, can do from a reachable state. */
module LeaseRuns {
  import opened Common
  import opened LeaseModel

  ghost predicate Reach(c: Config, s: State) {
    exists acts :: Exec(c, acts) == Some(s)
  }

  lemma Start(c: Config)
    ensures Reach(c, Init())
  {
    assert Exec(c, []) == Some(Init());
  }

  lemma Do(c: Config, s: State, act: Action)
    requires Reach(c, s) && Apply(c, s, act).Some?
    ensures Reach(c, Apply(c, s, act).value)
  {
    var acts :| Exec(c, acts) == Some(s);
    assert (acts + [act])[..|acts|] == acts;
    assert Exec(c, acts + [act]) == Apply(c, s, act);
  }

  lemma TwoHoldersRefute(c: Config, s: State, a: ActorId, b: ActorId)
    requires Reach(c, s) && Holding(s, a) && Holding(s, b) && a != b
    ensures !Safe(c)
  {
    var acts :| Exec(c, acts) == Some(s);
    assert !MutualExclusion(Exec(c, acts).value);
  }

  /** Do, for a step that only moves one program counter. */
  lemma DoMove(c: Config, s: State, act: Action, a: ActorId, before: PC, after: PC)
    requires a in s.actors && Reach(c, SetPC(s, a, before))
    requires Apply(c, SetPC(s, a, before), act) == Some(SetPC(SetPC(s, a, before), a, after))
    ensures Reach(c, SetPC(s, a, after))
  {
    Do(c, SetPC(s, a, before), act);
    assert SetPC(SetPC(s, a, before), a, after) == SetPC(s, a, after);
  }

  lemma Unmoved(s: State, a: ActorId)
    requires a in s.actors
    ensures SetPC(s, a, s.actors[a].pc) == s
  {
  }

  function Later(s: State, d: nat): State {
    s.(clock := s.clock + d)
  }

  lemma Wait(c: Config, s: State, d: nat)
    requires Reach(c, s)
    ensures Reach(c, Later(s, d))
  {
    Do(c, s, Tick(d));
  }

  // ---- arriving ----

  function Arriving(s: State, owner: string, ttl: Time): Actor {
    Actor(owner, ttl, Create(FreshBody(s, owner, ttl), true), None, false, Ticket(0, 0))
  }

  function Entered(s: State, a: ActorId, owner: string, ttl: Time): State {
    Mint(s, a, owner).(actors := s.actors[a := Arriving(s, owner, ttl)])
  }

  lemma Enter(c: Config, s: State, a: ActorId, owner: string, ttl: Time)
    requires Reach(c, s) && a !in s.actors && Token(owner, s.clock) !in s.minted && c.minTtl <= ttl
    ensures Reach(c, Entered(s, a, owner, ttl))
  {
    Do(c, s, Begin(a, owner, ttl));
  }

  // ---- claiming ----

  /** An acquirer that finds a stale lease goes straight on to the break claim. */
  lemma RunToVerdict(c: Config, s: State, a: ActorId, b: Body)
    requires Reach(c, s) && a in s.actors && s.actors[a].pc.Create? && s.actors[a].pc.first
    requires s.lease == Some(b) && !Live(b, s.clock)
    ensures Reach(c, SetPC(s, a, StampClaim(b.token, 0)))
  {
    Unmoved(s, a);
    DoMove(c, s, Go(a), a, s.actors[a].pc, ReadExisting);
    DoMove(c, s, Go(a), a, ReadExisting, JudgeExisting(b));
    DoMove(c, s, Go(a), a, JudgeExisting(b), Recheck(b));
    DoMove(c, s, Go(a), a, Recheck(b), JudgeRecheck(b, b, s.clock));
    DoMove(c, s, Go(a), a, JudgeRecheck(b, b, s.clock), StampClaim(b.token, 0));
  }

  /** The state in which `a` has just won generation `g` of the claim on `v`. */
  function Claimed(s: State, a: ActorId, v: Token, g: nat): State
    requires a in s.actors
  {
    SetTicket(s.(claims := s.claims[ClaimKey(v, g) := Claim(a, s.clock)]), a, Reread(v, g), Ticket(g, s.clock))
  }

  lemma RunClaim(c: Config, s: State, a: ActorId, v: Token, g: nat)
    requires a in s.actors && Reach(c, SetPC(s, a, StampClaim(v, g)))
    requires g < c.generations && ClaimKey(v, g) !in s.claims
    ensures Reach(c, Claimed(s, a, v, g))
  {
    DoMove(c, s, Go(a), a, StampClaim(v, g), PutClaim(v, g, s.clock));
    var s1 := SetPC(s, a, PutClaim(v, g, s.clock));
    Do(c, s1, Go(a));
    assert Apply(c, s1, Go(a)).value == Claimed(s, a, v, g);
  }

  /** A claimant that finds generation 0 taken has read that claim. */
  lemma RunReadClaim(c: Config, s: State, a: ActorId, v: Token)
    requires a in s.actors && Reach(c, SetPC(s, a, StampClaim(v, 0))) && c.generations >= 1
    requires ClaimKey(v, 0) in s.claims
    ensures Reach(c, SetPC(s, a, JudgeClaim(v, 0, s.claims[ClaimKey(v, 0)].claimedAt, s.clock)))
  {
    var at := s.claims[ClaimKey(v, 0)].claimedAt;
    DoMove(c, s, Go(a), a, StampClaim(v, 0), PutClaim(v, 0, s.clock));
    DoMove(c, s, Go(a), a, PutClaim(v, 0, s.clock), ReadClaim(v, 0));
    DoMove(c, s, Go(a), a, ReadClaim(v, 0), JudgeClaim(v, 0, at, s.clock));
  }

  /** The state in which `a` has re-read its victim and drawn a fresh body. */
  function Poised(s: State, a: ActorId, v: Token, g: nat): State
    requires a in s.actors
  {
    SetPC(Mint(s, a, s.actors[a].owner), a,
          Overwrite(v, g, s.clock, FreshBody(s, s.actors[a].owner, s.actors[a].ttl)))
  }

  lemma RunDraw(c: Config, s: State, a: ActorId, v: Token, g: nat)
    requires a in s.actors && Reach(c, SetPC(s, a, MintSuccessor(v, g, s.clock)))
    requires Token(s.actors[a].owner, s.clock) !in s.minted
    ensures Reach(c, Poised(s, a, v, g))
  {
    var s1 := SetPC(s, a, MintSuccessor(v, g, s.clock));
    Do(c, s1, Go(a));
    assert Apply(c, s1, Go(a)).value == Poised(s, a, v, g);
  }

  lemma RunPoise(c: Config, s: State, a: ActorId, v: Token, g: nat)
    requires a in s.actors && Reach(c, s) && s.actors[a].pc == Reread(v, g)
    requires Stores(s, v) && Token(s.actors[a].owner, s.clock) !in s.minted
    ensures Reach(c, Poised(s, a, v, g))
  {
    Unmoved(s, a);
    DoMove(c, s, Go(a), a, Reread(v, g), MintSuccessor(v, g, s.clock));
    RunDraw(c, s, a, v, g);
  }

  /** The claim on an unclaimed stale grant and the drawn body, in one instant. */
  lemma RunContend(c: Config, s: State, a: ActorId, b: Body)
    requires Reach(c, s) && a in s.actors && s.actors[a].pc.Create? && s.actors[a].pc.first && c.generations >= 1
    requires s.lease == Some(b) && !Live(b, s.clock) && ClaimKey(b.token, 0) !in s.claims
    requires Token(s.actors[a].owner, s.clock) !in s.minted
    ensures Reach(c, Poised(Claimed(s, a, b.token, 0), a, b.token, 0))
  {
    RunToVerdict(c, s, a, b);
    RunClaim(c, s, a, b.token, 0);
    RunPoise(c, Claimed(s, a, b.token, 0), a, b.token, 0);
  }

  /** The same past an aged claim, in generation 1. */
  lemma RunHeal(c: Config, s: State, a: ActorId, b: Body)
    requires Reach(c, s) && a in s.actors && s.actors[a].pc.Create? && s.actors[a].pc.first && c.generations >= 2
    requires s.lease == Some(b) && !Live(b, s.clock) && ClaimKey(b.token, 1) !in s.claims
    requires ClaimKey(b.token, 0) in s.claims && s.claims[ClaimKey(b.token, 0)].claimedAt + c.grace <= s.clock
    requires Token(s.actors[a].owner, s.clock) !in s.minted
    ensures Reach(c, Poised(Claimed(s, a, b.token, 1), a, b.token, 1))
  {
    RunToVerdict(c, s, a, b);
    RunReadClaim(c, s, a, b.token);
    DoMove(c, s, Go(a), a, JudgeClaim(b.token, 0, s.claims[ClaimKey(b.token, 0)].claimedAt, s.clock), StampClaim(b.token, 1));
    RunClaim(c, s, a, b.token, 1);
    RunPoise(c, Claimed(s, a, b.token, 1), a, b.token, 1);
  }

  // ---- overwriting ----

  /** The overwrite pending at `a` has landed. */
  function Overwritten(s: State, a: ActorId): State
    requires a in s.actors && s.actors[a].pc.Overwrite?
  {
    var pc := s.actors[a].pc;
    SetPC(s.(lease := Some(pc.body), grants := s.grants + [pc.body.token], succ := s.succ + [(pc.victim, pc.body.token)]),
          a, Verify(pc.victim, pc.body, 0, s.clock))
  }

  predicate CanOverwrite(c: Config, s: State, a: ActorId) {
    && a in s.actors && s.actors[a].pc.Overwrite? && InTime(c, s, s.actors[a])
    && Within(c.overwriteSlack, s.actors[a].pc.readAt, s.clock)
  }

  lemma RunStore(c: Config, s: State, a: ActorId)
    requires Reach(c, s) && CanOverwrite(c, s, a)
    ensures Reach(c, Overwritten(s, a))
  {
    Do(c, s, Go(a));
  }

  /** After the overwrite pending at `a` landed, at the end of an undisturbed settle window. */
  function Won(c: Config, s: State, a: ActorId): State
    requires a in s.actors && s.actors[a].pc.Overwrite? && c.settle >= 0
  {
    SetGrant(Later(Overwritten(s, a), c.settle), a, s.actors[a].pc.body)
  }

  lemma RunWin(c: Config, s: State, a: ActorId)
    requires ValidConfig(c) && Reach(c, s) && CanOverwrite(c, s, a)
    ensures Reach(c, Won(c, s, a))
  {
    RunStore(c, s, a);
    Wait(c, Overwritten(s, a), c.settle);
    Do(c, Later(Overwritten(s, a), c.settle), Go(a));
  }

  /** Release, or the hand-back of an unconfirmed reclaim, up to its tombstone. */
  lemma RunOwnershipCheck(c: Config, s: State, a: ActorId, b: Body)
    requires a in s.actors && Reach(c, SetPC(s, a, ReleaseRead(b))) && Stores(s, b.token)
    ensures Reach(c, SetPC(s, a, ReleasePut(b, s.clock, s.clock)))
  {
    DoMove(c, s, Go(a), a, ReleaseRead(b), ReleaseStamp(b, s.clock));
    DoMove(c, s, Go(a), a, ReleaseStamp(b, s.clock), ReleasePut(b, s.clock, s.clock));
  }

  /** The overwrite landed, and its verification was cancelled at once: the own body is tombstoned. */
  function Abandoned(s: State, a: ActorId): State
    requires a in s.actors && s.actors[a].pc.Overwrite?
  {
    SetPC(Overwritten(s, a).(lease := Some(Tombstone(s.actors[a].pc.body, s.clock))), a, Finished)
  }

  /** A cancelled verification hands the body back, up to the tombstone. */
  lemma RunGiveBack(c: Config, s: State, a: ActorId)
    requires Reach(c, s) && a in s.actors && s.actors[a].pc.Verify? && Stores(s, s.actors[a].pc.body.token)
    ensures Reach(c, SetPC(s, a, ReleasePut(s.actors[a].pc.body, s.clock, s.clock)))
  {
    var b := s.actors[a].pc.body;
    Unmoved(s, a);
    DoMove(c, s, Fail(a), a, s.actors[a].pc, ReleaseRead(b));
    RunOwnershipCheck(c, s, a, b);
  }

  lemma RunAbandon(c: Config, s: State, a: ActorId)
    requires Reach(c, s) && CanOverwrite(c, s, a) && s.actors[a].grant.None?
    ensures Reach(c, Abandoned(s, a))
  {
    RunStore(c, s, a);
    RunGiveBack(c, Overwritten(s, a), a);
    var s2 := SetPC(Overwritten(s, a), a, ReleasePut(s.actors[a].pc.body, s.clock, s.clock));
    Do(c, s2, Go(a));
    assert Apply(c, s2, Go(a)).value == Abandoned(s, a);
  }

  // ---- releasing ----

  /** The state in which holder `a` has checked its ownership and is about to store the tombstone. */
  function Checked(s: State, a: ActorId, b: Body): State
    requires a in s.actors
  {
    s.(actors := s.actors[a := s.actors[a].(gaveUp := true, pc := ReleasePut(b, s.clock, s.clock))])
  }

  lemma RunReleaseCall(c: Config, s: State, a: ActorId, b: Body)
    requires Reach(c, s) && a in s.actors && s.actors[a].pc == Ready && s.actors[a].grant == Some(b)
    requires c.releaseOnce ==> !s.actors[a].gaveUp
    ensures Reach(c, SetPC(s.(actors := s.actors[a := s.actors[a].(gaveUp := true)]), a, ReleaseRead(b)))
  {
    Do(c, s, CallRelease(a));
    assert Apply(c, s, CallRelease(a)).value
        == SetPC(s.(actors := s.actors[a := s.actors[a].(gaveUp := true)]), a, ReleaseRead(b));
  }

  lemma RunReleaseCheck(c: Config, s: State, a: ActorId, b: Body)
    requires Reach(c, s) && a in s.actors && s.actors[a].pc == Ready && s.actors[a].grant == Some(b)
    requires Stores(s, b.token) && (c.releaseOnce ==> !s.actors[a].gaveUp)
    ensures Reach(c, Checked(s, a, b))
  {
    var s1 := s.(actors := s.actors[a := s.actors[a].(gaveUp := true)]);
    RunReleaseCall(c, s, a, b);
    RunOwnershipCheck(c, s1, a, b);
    assert SetPC(s1, a, ReleasePut(b, s.clock, s.clock)) == Checked(s, a, b);
  }

  /** The tombstone pending at holder `a` has landed. */
  function Buried(s: State, a: ActorId): State
    requires a in s.actors && s.actors[a].pc.ReleasePut?
  {
    SetPC(s.(lease := Some(Tombstone(s.actors[a].pc.body, s.actors[a].pc.stamp))), a, Ready)
  }

  lemma RunBury(c: Config, s: State, a: ActorId)
    requires Reach(c, s) && a in s.actors && s.actors[a].pc.ReleasePut? && s.actors[a].grant.Some?
    requires Within(c.releaseSlack, s.actors[a].pc.readAt, s.clock)
    ensures Reach(c, Buried(s, a))
  {
    Do(c, s, Go(a));
  }

  // ---- re-asserting ----

  /** Reclaimer `a` has seen the tombstone of its victim. */
  function Echoed(s: State, a: ActorId): State
    requires a in s.actors && s.actors[a].pc.Verify?
  {
    SetPC(s, a, Reassert(s.actors[a].pc.victim, s.actors[a].pc.body, s.actors[a].pc.attempt, s.clock))
  }

  lemma RunEcho(c: Config, s: State, a: ActorId)
    requires Reach(c, s) && a in s.actors && s.actors[a].pc.Verify? && s.actors[a].pc.attempt < RECLAIM_ECHO_RETRIES
    requires s.actors[a].pc.putAt + c.settle <= s.clock
    requires Stores(s, s.actors[a].pc.victim) && s.actors[a].pc.body.token != s.actors[a].pc.victim
    ensures Reach(c, Echoed(s, a))
  {
    Do(c, s, Go(a));
  }

  predicate CanReassert(c: Config, s: State, a: ActorId) {
    && a in s.actors && s.actors[a].pc.Reassert? && InTime(c, s, s.actors[a])
    && Within(c.reassertSlack, s.actors[a].pc.readAt, s.clock)
  }

  function Restored(s: State, a: ActorId): State
    requires a in s.actors && s.actors[a].pc.Reassert?
  {
    var pc := s.actors[a].pc;
    SetPC(s.(lease := Some(pc.body)), a, Verify(pc.victim, pc.body, pc.attempt + 1, s.clock))
  }

  lemma RunRestore(c: Config, s: State, a: ActorId)
    requires Reach(c, s) && CanReassert(c, s, a)
    ensures Reach(c, Restored(s, a))
  {
    Do(c, s, Go(a));
  }

  /** After the re-assertion pending at `a` landed, at the end of an undisturbed settle window. */
  function Reasserted(c: Config, s: State, a: ActorId): State
    requires a in s.actors && s.actors[a].pc.Reassert? && c.settle >= 0
  {
    SetGrant(Later(Restored(s, a), c.settle), a, s.actors[a].pc.body)
  }

  lemma RunReassert(c: Config, s: State, a: ActorId)
    requires ValidConfig(c) && Reach(c, s) && CanReassert(c, s, a)
    ensures Reach(c, Reasserted(c, s, a))
  {
    RunRestore(c, s, a);
    Wait(c, Restored(s, a), c.settle);
    Do(c, Later(Restored(s, a), c.settle), Go(a));
  }

  // ---- dropping ----

  /** The re-read of claimant `a` failed and it dropped its claim. */
  function Dropped(s: State, a: ActorId, v: Token, g: nat): State
    requires a in s.actors
  {
    SetPC(s.(claims := s.claims - {ClaimKey(v, g)}), a, Finished)
  }

  lemma RunDrop(c: Config, s: State, a: ActorId, v: Token, g: nat)
    requires Reach(c, s) && a in s.actors && s.actors[a].pc == Reread(v, g) && InTime(c, s, s.actors[a])
    ensures Reach(c, Dropped(s, a, v, g))
  {
    Unmoved(s, a);
    DoMove(c, s, Fail(a), a, Reread(v, g), DropClaim(v, g));
    var s1 := SetPC(s, a, DropClaim(v, g));
    Do(c, s1, Go(a));
    assert Apply(c, s1, Go(a)).value == Dropped(s, a, v, g);
  }

  // ---- a common opening: an expired grant and three newcomers ----

  const U: Token := Token("a", 0)

  function Stale(c: Config): Body {
    Body(U, c.minTtl, false)
  }

  /** Long enough for every run here. */
  function Long(c: Config): Time {
    c.minTtl + c.grace + 8 * c.settle
  }

  function HolderOf(c: Config): Actor {
    Actor("a", c.minTtl, Ready, Some(Stale(c)), false, Ticket(0, 0))
  }

  function Alone(c: Config): State {
    State(c.minTtl, Some(Stale(c)), map[], map[U := 0], map[0 := HolderOf(c)], [U], [])
  }

  lemma RunAlone(c: Config)
    requires ValidConfig(c)
    ensures Reach(c, Alone(c))
  {
    Start(c);
    Enter(c, Init(), 0, "a", c.minTtl);
    var s1 := Entered(Init(), 0, "a", c.minTtl);
    Do(c, s1, Go(0));
    var s2 := Apply(c, s1, Go(0)).value;
    assert s2 == State(0, Some(Stale(c)), map[], map[U := 0], map[0 := HolderOf(c)], [U], []);
    Wait(c, s2, c.minTtl);
    assert Later(s2, c.minTtl) == Alone(c);
  }

  function Newcomer(c: Config, owner: string, ttl: Time): Actor {
    Actor(owner, ttl, Create(Body(Token(owner, c.minTtl), c.minTtl + ttl, false), true), None, false, Ticket(0, 0))
  }

  /** Three newcomers, the first asking for `ttl`; one tick later than they arrived. */
  function Opening(c: Config, ttl: Time): State {
    State(c.minTtl + 1, Some(Stale(c)), map[],
          map[U := 0, Token("b", c.minTtl) := 1, Token("c", c.minTtl) := 2, Token("d", c.minTtl) := 3],
          map[0 := HolderOf(c), 1 := Newcomer(c, "b", ttl), 2 := Newcomer(c, "c", Long(c)), 3 := Newcomer(c, "d", Long(c))],
          [U], [])
  }

  lemma RunOpening(c: Config, ttl: Time)
    requires ValidConfig(c) && c.minTtl <= ttl
    ensures Reach(c, Opening(c, ttl))
  {
    RunAlone(c);
    var s := Alone(c);
    Enter(c, s, 1, "b", ttl);
    var s1 := Entered(s, 1, "b", ttl);
    Enter(c, s1, 2, "c", Long(c));
    var s2 := Entered(s1, 2, "c", Long(c));
    Enter(c, s2, 3, "d", Long(c));
    Wait(c, Entered(s2, 3, "d", Long(c)), 1);
    assert Later(Entered(s2, 3, "d", Long(c)), 1) == Opening(c, ttl);
  }
}
