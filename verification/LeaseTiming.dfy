/** Which timings exclude, and which do not.

    LeaseSuccession, LeaseSettle and LeaseGrace show that a condition on the delays suffices.  Here every way of
    missing it is turned into a run, for every timing that misses it, at whose end two actors hold the lease of one
    deployment. */
module LeaseTiming {
  import opened Common
  import opened LeaseModel
  import opened LeaseInvariant
  import opened LeaseQuiet
  import opened LeaseClaims
  import opened LeaseSettle
  import opened LeaseGrace
  import opened LeaseRuns
  import LeaseSuccession

  // ---- late tombstones ----

  /** Actor 1 is about to overwrite the expired grant, whose holder has just checked it for release. */
  function Crossing(c: Config): State {
    Checked(Poised(Claimed(Opening(c, Long(c)), 1, U, 0), 1, U, 0), 0, Stale(c))
  }

  lemma RunCrossing(c: Config)
    requires ValidConfig(c)
    ensures Reach(c, Crossing(c))
  {
    RunOpening(c, Long(c));
    var s := Opening(c, Long(c));
    RunContend(c, s, 1, Stale(c));
    RunReleaseCheck(c, Poised(Claimed(s, 1, U, 0), 1, U, 0), 0, Stale(c));
  }

  /** Tombstones that may land a settle window after their check: one buries a confirmed successor. */
  lemma LateRelease(c: Config)
    requires ValidConfig(c) && c.generations >= 2 && !Tight(c.releaseSlack, c.settle)
    ensures !Safe(c)
  {
    RunCrossing(c);
    RunWin(c, Crossing(c), 1);
    var s1 := Won(c, Crossing(c), 1);
    RunBury(c, s1, 0);
    Wait(c, Buried(s1, 0), c.grace);
    var s2 := Later(Buried(s1, 0), c.grace);
    RunHeal(c, s2, 2, s2.lease.value);
    var s3 := Poised(Claimed(s2, 2, U, 1), 2, U, 1);
    RunWin(c, s3, 2);
    TwoHoldersRefute(c, Won(c, s3, 2), 1, 2);
  }

  // ---- a claim judged abandoned that was dropped and taken again ----

  /** How long after its stamp a claim can be read and still be judged aged when the grace period ends. */
  function ReadDelay(c: Config): nat
    requires c.grace >= 0
  {
    if c.ageSlack.AtMost? && c.ageSlack.n < c.grace then c.grace - c.ageSlack.n else 0
  }

  /** Actor 1 has claimed, actor 2 has read that claim. */
  function ClaimRead(c: Config): State
    requires c.grace >= 0
  {
    var s := Later(Claimed(Opening(c, Long(c)), 1, U, 0), ReadDelay(c));
    SetPC(s, 2, JudgeClaim(U, 0, c.minTtl + 1, s.clock))
  }

  lemma RunClaimRead(c: Config)
    requires ValidConfig(c)
    ensures Reach(c, ClaimRead(c))
  {
    RunOpening(c, Long(c));
    var s := Opening(c, Long(c));
    RunToVerdict(c, s, 1, Stale(c));
    RunClaim(c, s, 1, U, 0);
    Wait(c, Claimed(s, 1, U, 0), ReadDelay(c));
    var s1 := Later(Claimed(s, 1, U, 0), ReadDelay(c));
    RunToVerdict(c, s1, 2, Stale(c));
    RunReadClaim(c, s1, 2, U);
  }

  /** Actor 1 has dropped the claim again, and actor 2 has judged it abandoned. */
  function Misread(c: Config): State
    requires c.grace >= 0
  {
    SetPC(Later(Dropped(ClaimRead(c), 1, U, 0), c.grace - ReadDelay(c)), 2, StampClaim(U, 1))
  }

  lemma RunMisread(c: Config)
    requires ValidConfig(c) && !ClaimsExpire(c)
    ensures Reach(c, Misread(c))
  {
    RunClaimRead(c);
    var s := ClaimRead(c);
    RunDrop(c, s, 1, U, 0);
    Wait(c, Dropped(s, 1, U, 0), c.grace - ReadDelay(c));
    var s1 := Later(Dropped(s, 1, U, 0), c.grace - ReadDelay(c));
    Unmoved(s1, 2);
    DoMove(c, s1, Go(2), 2, s1.actors[2].pc, StampClaim(U, 1));
  }

  /** Claims that can still be dropped when another is about to judge them abandoned: the dropped generation is taken
      again, and both claimants overwrite. */
  lemma LateAge(c: Config)
    requires ValidConfig(c) && c.generations >= 2 && !PromptOverwrites(c) && !ClaimsExpire(c)
    ensures !Safe(c)
  {
    RunMisread(c);
    var s := Misread(c);
    Unmoved(s, 2);
    RunClaim(c, s, 2, U, 1);
    var s1 := Claimed(s, 2, U, 1);
    RunPoise(c, s1, 2, U, 1);
    var s2 := Poised(s1, 2, U, 1);
    RunContend(c, s2, 3, Stale(c));
    var s3 := Poised(Claimed(s2, 3, U, 0), 3, U, 0);
    RunWin(c, s3, 2);
    RunWin(c, Won(c, s3, 2), 3);
    TwoHoldersRefute(c, Won(c, Won(c, s3, 2), 3), 2, 3);
  }

  /** The special case of claimants that nothing bounds but their last read. */
  lemma LateOverwrite(c: Config)
    requires ValidConfig(c) && c.generations >= 2 && !Tight(c.overwriteSlack, c.settle) && c.claimSlack.Unbounded?
    ensures !Safe(c)
  {
    LateAge(c);
  }

  /** The dropped generation taken again by actor 3, whose overwrite is buried by the old holder's tombstone. */
  function BuriedClaimant(c: Config): State
    requires c.grace >= 0
  {
    Buried(Overwritten(Checked(Poised(Claimed(Misread(c), 3, U, 0), 3, U, 0), 0, Stale(c)), 3), 0)
  }

  lemma RunBuriedClaimant(c: Config)
    requires ValidConfig(c) && !ClaimsExpire(c)
    ensures Reach(c, BuriedClaimant(c))
  {
    RunMisread(c);
    var s := Misread(c);
    RunContend(c, s, 3, Stale(c));
    var s1 := Poised(Claimed(s, 3, U, 0), 3, U, 0);
    RunReleaseCheck(c, s1, 0, Stale(c));
    RunStore(c, Checked(s1, 0, Stale(c)), 3);
    RunBury(c, Overwritten(Checked(s1, 0, Stale(c)), 3), 0);
  }

  /** Actor 3 has seen the echo; actor 2 heals the old claim, overwrites and holds. */
  function HealedPast(c: Config): State
    requires c.grace >= 0 && c.settle >= 0
  {
    Won(c, Poised(Claimed(Echoed(Later(BuriedClaimant(c), c.settle), 3), 2, U, 1), 2, U, 1), 2)
  }

  lemma RunHealedPast(c: Config)
    requires ValidConfig(c) && c.generations >= 2 && !ClaimsExpire(c)
    ensures Reach(c, HealedPast(c))
  {
    RunBuriedClaimant(c);
    Wait(c, BuriedClaimant(c), c.settle);
    var s := Later(BuriedClaimant(c), c.settle);
    RunEcho(c, s, 3);
    var s1 := Echoed(s, 3);
    Unmoved(s1, 2);
    RunClaim(c, s1, 2, U, 1);
    RunPoise(c, Claimed(s1, 2, U, 1), 2, U, 1);
    RunWin(c, Poised(Claimed(s1, 2, U, 1), 2, U, 1), 2);
  }

  /** Re-assertions that may land a settle window after the echo was seen, past a confirmed healer. */
  lemma LateReassert(c: Config)
    requires ValidConfig(c) && c.generations >= 2 && !PromptReasserts(c) && !ClaimsExpire(c)
    ensures !Safe(c)
  {
    RunHealedPast(c);
    RunReassert(c, HealedPast(c), 3);
    TwoHoldersRefute(c, Reasserted(c, HealedPast(c), 3), 2, 3);
  }

  // ---- abandoned overwrites and echoes ----

  /** Actor `i` is about to overwrite an abandoned body, while an echo has brought the first grant back.  The claim on
      that grant was stamped at `t0`, and actor 2 is still to come. */
  ghost predicate Relay(c: Config, s: State, t0: Time, i: ActorId, p: string, q: string) {
    && Reach(c, s) && i >= 3 && 0 in s.actors && 2 in s.actors && i in s.actors && (forall a :: a in s.actors ==> a <= i)
    && (p, q) in {("d", "e"), ("e", "d")}
    && s.actors[0] == HolderOf(c).(gaveUp := true) && s.actors[2] == Newcomer(c, "c", Long(c))
    && RelayActor(c, s, i, p)
    && s.lease.Some? && s.lease.value.token == U && s.lease.value.released
    && RelayClaims(s, t0, p) && RelayTokens(c, s, q)
  }

  predicate RelayActor(c: Config, s: State, i: ActorId, p: string)
    requires i in s.actors
  {
    var x := s.actors[i];
    && x.owner == p && x.ttl == Long(c) && x.grant.None? && !x.gaveUp && x.ticket == Ticket(0, s.clock) && x.pc.Overwrite?
    && x.pc.readAt == s.clock && x.pc.body == Body(Token(p, s.clock), s.clock + Long(c), false)
  }

  ghost predicate RelayClaims(s: State, t0: Time, p: string) {
    && ClaimKey(U, 0) in s.claims && s.claims[ClaimKey(U, 0)].claimedAt == t0 && ClaimKey(U, 1) !in s.claims
    && (forall k :: k in s.claims ==> k.victim.acquiredAt <= s.clock && k.victim != Token(p, s.clock))
  }

  ghost predicate RelayTokens(c: Config, s: State, q: string) {
    && c.minTtl < s.clock && Token(q, s.clock) !in s.minted
    && (forall t :: t in s.minted ==> t.acquiredAt <= s.clock && (t.owner == "c" ==> t.acquiredAt < s.clock))
  }

  /** Actor 1 has claimed, waited, overwritten and abandoned; the old holder's tombstone is under way. */
  function AbandonedFirst(c: Config, d: nat): State {
    Abandoned(Checked(Poised(Later(Claimed(Opening(c, Long(c)), 1, U, 0), d), 1, U, 0), 0, Stale(c)), 1)
  }

  lemma RunAbandonedFirst(c: Config, d: nat)
    requires ValidConfig(c) && (c.claimSlack.AtMost? ==> d <= c.claimSlack.n)
    ensures Reach(c, AbandonedFirst(c, d))
  {
    RunOpening(c, Long(c));
    var s := Opening(c, Long(c));
    RunToVerdict(c, s, 1, Stale(c));
    RunClaim(c, s, 1, U, 0);
    Wait(c, Claimed(s, 1, U, 0), d);
    var s1 := Later(Claimed(s, 1, U, 0), d);
    RunPoise(c, s1, 1, U, 0);
    var s2 := Poised(s1, 1, U, 0);
    RunReleaseCheck(c, s2, 0, Stale(c));
    RunAbandon(c, Checked(s2, 0, Stale(c)), 1);
  }

  /** The first body of the relay. */
  function FirstBody(c: Config, d: nat): Token {
    Token("b", c.minTtl + 1 + d)
  }

  function Started(c: Config, d: nat, e: nat): State {
    var s, v := Later(AbandonedFirst(c, d), e), FirstBody(c, d);
    Buried(Poised(Claimed(s, 3, v, 0), 3, v, 0), 0)
  }

  lemma RunStarted(c: Config, d: nat, e: nat)
    requires ValidConfig(c) && (c.claimSlack.AtMost? ==> d <= c.claimSlack.n) && (c.releaseSlack.AtMost? ==> e <= c.releaseSlack.n)
    ensures Reach(c, Started(c, d, e))
  {
    RunAbandonedFirst(c, d);
    Wait(c, AbandonedFirst(c, d), e);
    var s, v := Later(AbandonedFirst(c, d), e), FirstBody(c, d);
    RunContend(c, s, 3, s.lease.value);
    RunBury(c, Poised(Claimed(s, 3, v, 0), 3, v, 0), 0);
  }

  lemma StartedActors(c: Config, d: nat, e: nat)
    ensures var s := Started(c, d, e);
            && s.actors.Keys == {0, 1, 2, 3} && s.clock == c.minTtl + 1 + d + e
            && s.actors[0] == HolderOf(c).(gaveUp := true) && s.actors[2] == Newcomer(c, "c", Long(c))
            && RelayActor(c, s, 3, "d") && s.lease == Some(Tombstone(Stale(c), c.minTtl + 1 + d))
  {
  }

  lemma StartedClaimsAre(c: Config, d: nat, e: nat)
    ensures Started(c, d, e).claims
         == map[ClaimKey(U, 0) := Claim(1, c.minTtl + 1), ClaimKey(FirstBody(c, d), 0) := Claim(3, c.minTtl + 1 + d + e)]
  {
  }

  lemma StartedClaims(c: Config, s: State, d: nat, e: nat)
    requires ValidConfig(c) && s.clock == c.minTtl + 1 + d + e
    requires s.claims
          == map[ClaimKey(U, 0) := Claim(1, c.minTtl + 1), ClaimKey(FirstBody(c, d), 0) := Claim(3, c.minTtl + 1 + d + e)]
    ensures RelayClaims(s, c.minTtl + 1, "d")
  {
  }

  lemma OpeningTokens(c: Config, t: Token)
    requires t in Opening(c, Long(c)).minted && ValidConfig(c)
    ensures t.acquiredAt <= c.minTtl && t.owner != "e"
  {
  }

  lemma StartedMinted(c: Config, d: nat, e: nat)
    ensures Started(c, d, e).minted
         == Opening(c, Long(c)).minted[FirstBody(c, d) := 1][Token("d", c.minTtl + 1 + d + e) := 3]
  {
  }

  lemma StartedTokens(c: Config, d: nat, e: nat)
    requires ValidConfig(c)
    ensures RelayTokens(c, Started(c, d, e), "e")
  {
    var s := Started(c, d, e);
    StartedMinted(c, d, e);
    StartedActors(c, d, e);
    forall t | t in s.minted
      ensures t.acquiredAt <= s.clock && t.owner != "e" && (t.owner == "c" ==> t.acquiredAt < s.clock)
    {
      if t in Opening(c, Long(c)).minted { OpeningTokens(c, t); }
    }
  }

  /** A state with which the relay can begin. */
  lemma Begins(c: Config, d: nat, e: nat) returns (s: State)
    requires ValidConfig(c) && (c.claimSlack.AtMost? ==> d <= c.claimSlack.n) && (c.releaseSlack.AtMost? ==> e <= c.releaseSlack.n)
    ensures Reach(c, s) && RelayClaims(s, c.minTtl + 1, "d") && RelayTokens(c, s, "e")
    ensures s.actors.Keys == {0, 1, 2, 3} && s.clock == c.minTtl + 1 + d + e && RelayActor(c, s, 3, "d")
    ensures s.actors[0] == HolderOf(c).(gaveUp := true) && s.actors[2] == Newcomer(c, "c", Long(c))
    ensures s.lease == Some(Tombstone(Stale(c), c.minTtl + 1 + d))
  {
    RunStarted(c, d, e);
    StartedActors(c, d, e);
    StartedClaimsAre(c, d, e);
    StartedClaims(c, Started(c, d, e), d, e);
    StartedTokens(c, d, e);
    s := Started(c, d, e);
  }

  lemma RelayStarts(c: Config, d: nat, e: nat) returns (s: State)
    requires ValidConfig(c) && (c.claimSlack.AtMost? ==> d <= c.claimSlack.n) && (c.releaseSlack.AtMost? ==> e <= c.releaseSlack.n)
    ensures Relay(c, s, c.minTtl + 1, 3, "d", "e") && s.clock == c.minTtl + 1 + d + e
  {
    s := Begins(c, d, e);
  }

  /** The claimant of the first grant heals the old claim while the relay's overwrite is still to come: both win. */
  lemma RelayEnds(c: Config, s: State, t0: Time, i: ActorId, p: string, q: string, e: nat)
    requires ValidConfig(c) && c.generations >= 2 && !PromptOverwrites(c) && Relay(c, s, t0, i, p, q)
    requires t0 + c.grace <= s.clock + e && e <= c.grace
    requires (c.claimSlack.AtMost? ==> e <= c.claimSlack.n) && (c.overwriteSlack.AtMost? ==> e <= c.overwriteSlack.n)
    ensures !Safe(c)
  {
    Wait(c, s, e);
    var s1 := Later(s, e);
    RunHeal(c, s1, 2, s.lease.value);
    var s2 := Poised(Claimed(s1, 2, U, 1), 2, U, 1);
    RunWin(c, s2, i);
    var s3 := Won(c, s2, i);
    RunWin(c, s3, 2);
    var s4 := Won(c, s3, 2);
    assert s4.clock == s.clock + e + 2 * c.settle && s4.actors[i].grant == Some(s.actors[i].pc.body) && !s4.actors[i].gaveUp;
    assert s4.actors[2].grant == Some(s2.actors[2].pc.body) && s2.actors[2].pc.body.expiresAt == s.clock + e + Long(c);
    TwoHoldersRefute(c, s4, i, 2);
  }

  /** A cancelled verification leaves a tombstone that can be claimed at once; with an echo under it, two claims in a
      row reach past the grace period of the first. */
  lemma LateAbandon(c: Config)
    requires ValidConfig(c) && c.generations >= 2 && !PromptOverwrites(c)
    requires c.claimSlack.AtMost? && c.releaseSlack.AtMost? && OverlapsGrace(c)
    ensures !Safe(c)
  {
    var s := RelayStarts(c, c.claimSlack.n, c.releaseSlack.n);
    var reached := c.claimSlack.n + c.releaseSlack.n;
    RelayEnds(c, s, c.minTtl + 1, 3, "d", "e", if reached < c.grace then c.grace - reached else 0);
  }

  /** A claim, an echo and a second claim together outlast the grace period. */
  predicate OverlapsGrace(c: Config)
    requires c.claimSlack.AtMost? && c.releaseSlack.AtMost?
  {
    && c.grace <= 2 * c.claimSlack.n + c.releaseSlack.n
    && (c.overwriteSlack.AtMost? ==> c.grace <= c.claimSlack.n + c.releaseSlack.n + c.overwriteSlack.n)
  }

  // ---- holders that release again and again ----

  function Waiting(c: Config, s: State, i: ActorId, q: string): State {
    Later(Entered(s, i + 1, q, Long(c)), 1)
  }

  function Relayed(c: Config, s: State, i: ActorId, p: string, q: string): State
    requires 0 in s.actors && i in s.actors && i > 0 && s.actors[i].pc.Overwrite?
  {
    var s1, v := Abandoned(Checked(Waiting(c, s, i, q), 0, Stale(c)), i), Token(p, s.clock);
    Buried(Poised(Claimed(s1, i + 1, v, 0), i + 1, v, 0), 0)
  }

  lemma RunWaiting(c: Config, s: State, t0: Time, i: ActorId, p: string, q: string)
    requires ValidConfig(c) && !c.releaseOnce && !PromptOverwrites(c) && Relay(c, s, t0, i, p, q)
    ensures Reach(c, Abandoned(Checked(Waiting(c, s, i, q), 0, Stale(c)), i))
  {
    Enter(c, s, i + 1, q, Long(c));
    Wait(c, Entered(s, i + 1, q, Long(c)), 1);
    RunReleaseCheck(c, Waiting(c, s, i, q), 0, Stale(c));
    RunAbandon(c, Checked(Waiting(c, s, i, q), 0, Stale(c)), i);
  }

  lemma WaitingEnds(c: Config, s: State, t0: Time, i: ActorId, p: string, q: string)
    requires ValidConfig(c) && Relay(c, s, t0, i, p, q)
    ensures var s1 := Abandoned(Checked(Waiting(c, s, i, q), 0, Stale(c)), i);
            && s1.clock == s.clock + 1 && s1.lease == Some(Tombstone(s.actors[i].pc.body, s1.clock)) && s1.claims == s.claims
            && s1.actors.Keys == s.actors.Keys + {i + 1} && s1.actors[i + 1] == Arriving(s, q, Long(c))
            && s1.actors[0] == HolderOf(c).(gaveUp := true, pc := ReleasePut(Stale(c), s1.clock, s1.clock))
            && s1.minted == s.minted[Token(q, s.clock) := i + 1]
  {
  }

  lemma RunRelayed(c: Config, s: State, t0: Time, i: ActorId, p: string, q: string)
    requires ValidConfig(c) && !c.releaseOnce && !PromptOverwrites(c) && c.generations >= 1 && Relay(c, s, t0, i, p, q)
    ensures Reach(c, Relayed(c, s, i, p, q))
  {
    RunWaiting(c, s, t0, i, p, q);
    WaitingEnds(c, s, t0, i, p, q);
    RunTakeover(c, s, Abandoned(Checked(Waiting(c, s, i, q), 0, Stale(c)), i), i, p, q);
  }

  lemma RunTakeover(c: Config, s: State, s1: State, i: ActorId, p: string, q: string)
    requires ValidConfig(c) && Reach(c, s1) && s1.clock == s.clock + 1 && c.generations >= 1 && i > 0
    requires s1.lease.Some? && s1.lease.value.token == Token(p, s.clock) && s1.lease.value.released
    requires 0 in s1.actors && i + 1 in s1.actors && s1.actors[i + 1] == Arriving(s, q, Long(c))
    requires s1.actors[0] == HolderOf(c).(gaveUp := true, pc := ReleasePut(Stale(c), s1.clock, s1.clock))
    requires ClaimKey(Token(p, s.clock), 0) !in s1.claims && Token(q, s1.clock) !in s1.minted
    ensures var v := Token(p, s.clock); Reach(c, Buried(Poised(Claimed(s1, i + 1, v, 0), i + 1, v, 0), 0))
  {
    var v := Token(p, s.clock);
    RunContend(c, s1, i + 1, s1.lease.value);
    RunBury(c, Poised(Claimed(s1, i + 1, v, 0), i + 1, v, 0), 0);
  }

  /** The takeover, on what the relay has come to. */
  lemma TakenOver(c: Config, s: State, s1: State, i: ActorId, p: string, q: string) returns (s': State)
    requires s1.clock == s.clock + 1 && 0 in s1.actors && i + 1 in s1.actors && i > 1 && 2 in s1.actors
    requires s1.actors[i + 1] == Arriving(s, q, Long(c))
    requires s1.actors[0] == HolderOf(c).(gaveUp := true, pc := ReleasePut(Stale(c), s1.clock, s1.clock))
    ensures var v := Token(p, s.clock); s' == Buried(Poised(Claimed(s1, i + 1, v, 0), i + 1, v, 0), 0)
    ensures s'.clock == s1.clock && s'.actors.Keys == s1.actors.Keys && s'.actors[2] == s1.actors[2]
    ensures s'.actors[0] == HolderOf(c).(gaveUp := true) && RelayActor(c, s', i + 1, q)
    ensures s'.lease == Some(Tombstone(Stale(c), s1.clock))
    ensures s'.claims == s1.claims[ClaimKey(Token(p, s.clock), 0) := Claim(i + 1, s1.clock)]
    ensures s'.minted == s1.minted[Token(q, s1.clock) := i + 1]
  {
    var v := Token(p, s.clock);
    s' := Buried(Poised(Claimed(s1, i + 1, v, 0), i + 1, v, 0), 0);
  }

  lemma HistoryGoesOn(c: Config, s: State, s': State, t0: Time, i: ActorId, p: string, q: string)
    requires p != q && p != "c" && q != "c" && RelayClaims(s, t0, p) && RelayTokens(c, s, q) && s'.clock == s.clock + 1
    requires s'.claims == s.claims[ClaimKey(Token(p, s.clock), 0) := Claim(i + 1, s'.clock)]
    requires s'.minted == s.minted[Token(q, s.clock) := i + 1][Token(q, s'.clock) := i + 1]
    requires c.minTtl > 0
    ensures RelayClaims(s', t0, q) && RelayTokens(c, s', p)
  {
  }

  /** One more abandoned overwrite under one more tombstone of the first grant. */
  lemma RelayGoesOn(c: Config, s: State, t0: Time, i: ActorId, p: string, q: string) returns (s': State)
    requires ValidConfig(c) && !c.releaseOnce && !PromptOverwrites(c) && Relay(c, s, t0, i, p, q)
    ensures Relay(c, s', t0, i + 1, q, p) && s'.clock == s.clock + 1
  {
    RunRelayed(c, s, t0, i, p, q);
    WaitingEnds(c, s, t0, i, p, q);
    s' := TakenOver(c, s, Abandoned(Checked(Waiting(c, s, i, q), 0, Stale(c)), i), i, p, q);
    HistoryGoesOn(c, s, s', t0, i, p, q);
  }

  lemma {:induction false} RelayOutlasts(c: Config, s: State, t0: Time, i: ActorId, p: string, q: string)
    requires ValidConfig(c) && c.generations >= 2 && !c.releaseOnce && !PromptOverwrites(c) && Relay(c, s, t0, i, p, q)
    ensures !Safe(c)
    decreases t0 + c.grace - s.clock
  {
    if t0 + c.grace <= s.clock {
      RelayEnds(c, s, t0, i, p, q, 0);
    } else {
      var s' := RelayGoesOn(c, s, t0, i, p, q);
      RelayOutlasts(c, s', t0, i + 1, q, p);
    }
  }

  /** If a holder may release more than once, no grace period is long enough. */
  lemma RepeatedRelease(c: Config)
    requires ValidConfig(c) && c.generations >= 2 && !PromptOverwrites(c) && !c.releaseOnce
    ensures !Safe(c)
  {
    var s := RelayStarts(c, 0, 0);
    RelayOutlasts(c, s, c.minTtl + 1, 3, "d", "e");
  }

  // ---- leases shorter than their claimants' time ----

  /** The body that actor 1 draws. */
  function ShortBody(c: Config): Body {
    Body(Token("b", c.minTtl + 1), 2 * c.minTtl + 1, false)
  }

  /** Actor 1 has drawn a short lease, waited for `p` and stored it while the old holder was releasing. */
  function ShortStored(c: Config, p: nat): State {
    Overwritten(Checked(Later(Poised(Claimed(Opening(c, c.minTtl), 1, U, 0), 1, U, 0), p), 0, Stale(c)), 1)
  }

  ghost predicate ShortHeld(c: Config, s: State, p: nat) {
    && s.clock == c.minTtl + 1 + p && s.lease == Some(ShortBody(c)) && s.actors.Keys == {0, 1, 2, 3}
    && s.actors[0] == HolderOf(c).(gaveUp := true, pc := ReleasePut(Stale(c), s.clock, s.clock))
    && s.actors[1].pc == Verify(U, ShortBody(c), 0, s.clock) && s.actors[1].ticket.at == c.minTtl + 1
    && s.actors[2] == Newcomer(c, "c", Long(c)) && s.actors[3] == Newcomer(c, "d", Long(c))
    && s.claims == map[ClaimKey(U, 0) := Claim(1, c.minTtl + 1)]
    && (forall t :: t in s.minted ==> t.acquiredAt <= c.minTtl + 1 && (t.owner in {"c", "d"} ==> t.acquiredAt <= c.minTtl))
  }

  lemma ShortIsHeld(c: Config, p: nat)
    requires ValidConfig(c)
    ensures ShortHeld(c, ShortStored(c, p), p)
  {
  }

  lemma RunShortStored(c: Config, p: nat)
    requires ValidConfig(c)
    requires (c.claimSlack.AtMost? ==> p <= c.claimSlack.n) && (c.overwriteSlack.AtMost? ==> p <= c.overwriteSlack.n)
    ensures Reach(c, ShortStored(c, p))
  {
    RunOpening(c, c.minTtl);
    var s := Opening(c, c.minTtl);
    RunContend(c, s, 1, Stale(c));
    Wait(c, Poised(Claimed(s, 1, U, 0), 1, U, 0), p);
    var s1 := Later(Poised(Claimed(s, 1, U, 0), 1, U, 0), p);
    RunReleaseCheck(c, s1, 0, Stale(c));
    RunStore(c, Checked(s1, 0, Stale(c)), 1);
  }

  /** Actor 2 has claimed it `e` later, when it had expired; then the tombstone lands, and `d` more goes by. */
  function ThenEchoed(c: Config, s: State, e: nat, d: nat): State
    requires 0 in s.actors && 2 in s.actors && s.actors[0].pc.ReleasePut?
  {
    var v := ShortBody(c).token;
    Later(Buried(Poised(Claimed(Later(s, e), 2, v, 0), 2, v, 0), 0), d)
  }

  /** The old holder's tombstone has landed while actor 1 verifies and actor 2 is about to overwrite. */
  predicate Echoing(c: Config, s: State, p: nat, e: nat) {
    var v := Token("b", c.minTtl + 1);
    && s.clock == v.acquiredAt + p + c.settle && Stores(s, U) && {1, 2, 3} <= s.actors.Keys
    && s.actors[1].pc == Verify(U, ShortBody(c), 0, v.acquiredAt + p)
    && s.actors[1].ticket.at == v.acquiredAt
    && s.actors[2].ticket == Ticket(0, v.acquiredAt + p + e) && s.actors[2].pc.Overwrite? && !s.actors[2].gaveUp
    && s.actors[2].pc.readAt == v.acquiredAt + p + e
    && s.clock + c.grace + 2 * c.settle < s.actors[2].pc.body.expiresAt
    && s.actors[3] == Newcomer(c, "d", Long(c)) && Token("d", s.clock + c.settle + c.grace) !in s.minted
    && ClaimKey(v, 0) in s.claims && s.claims[ClaimKey(v, 0)].claimedAt == v.acquiredAt + p + e
    && ClaimKey(v, 1) !in s.claims
  }

  lemma HeldEchoes(c: Config, s: State, p: nat, e: nat, d: nat)
    requires ValidConfig(c) && e + d == c.settle && ShortHeld(c, s, p)
    ensures Echoing(c, ThenEchoed(c, s, e, d), p, e)
  {
  }

  lemma RunEchoed(c: Config, s: State, p: nat, e: nat, d: nat)
    requires ValidConfig(c) && c.minTtl <= p + e && 0 < p + e && Reach(c, s) && ShortHeld(c, s, p)
    requires c.releaseSlack.AtMost? ==> e <= c.releaseSlack.n
    ensures Reach(c, ThenEchoed(c, s, e, d))
  {
    var v := ShortBody(c).token;
    Wait(c, s, e);
    RunContend(c, Later(s, e), 2, ShortBody(c));
    var s1 := Poised(Claimed(Later(s, e), 2, v, 0), 2, v, 0);
    RunBury(c, s1, 0);
    Wait(c, Buried(s1, 0), d);
  }

  /** An echo is seen by the one claimant, while the other overwrites and settles. */
  lemma RunEchoThenWin(c: Config, s: State, a: ActorId, b: ActorId)
    requires ValidConfig(c) && Reach(c, s) && a in s.actors && a != b && CanOverwrite(c, s, b)
    requires s.actors[a].pc.Verify? && s.actors[a].pc.attempt < RECLAIM_ECHO_RETRIES
    requires s.actors[a].pc.putAt + c.settle <= s.clock
    requires Stores(s, s.actors[a].pc.victim) && s.actors[a].pc.body.token != s.actors[a].pc.victim
    ensures Reach(c, Won(c, Echoed(s, a), b))
  {
    RunEcho(c, s, a);
    RunWin(c, Echoed(s, a), b);
  }

  /** What that state looks like: actor 2 holds, and the expired body of actor 1 is about to land on it. */
  ghost predicate AboutToLand(c: Config, s: State, at: Time) {
    var v := Token("b", c.minTtl + 1);
    && Reach(c, s) && s.lease.Some? && s.clock >= at && {1, 2, 3} <= s.actors.Keys && CanReassert(c, s, 1)
    && s.actors[1].pc.body.token == v && s.actors[1].pc.body.expiresAt <= s.clock
    && s.actors[2].grant.Some? && !s.actors[2].gaveUp && s.clock + c.grace + c.settle < s.actors[2].grant.value.expiresAt
    && s.actors[3] == Newcomer(c, "d", Long(c)) && Token("d", s.clock + c.grace) !in s.minted
    && ClaimKey(v, 0) in s.claims && s.claims[ClaimKey(v, 0)].claimedAt == at && ClaimKey(v, 1) !in s.claims
  }

  lemma EchoingLands(c: Config, s: State, p: nat, e: nat, at: Time)
    requires at == c.minTtl + 1 + p + e
    requires ValidConfig(c) && c.minTtl <= p + e && 0 < p + e && e < c.settle && Reach(c, s) && Echoing(c, s, p, e)
    requires c.claimSlack.AtMost? ==> p + 2 * c.settle <= c.claimSlack.n
    requires c.overwriteSlack.AtMost? ==> c.settle - e <= c.overwriteSlack.n
    requires !Tight(c.reassertSlack, c.settle)
    ensures AboutToLand(c, Won(c, Echoed(s, 1), 2), at)
  {
    RunEchoThenWin(c, s, 1, 2);
  }

  lemma LandsOnHolder(c: Config, s: State, at: Time)
    requires ValidConfig(c) && c.generations >= 2 && AboutToLand(c, s, at)
    ensures !Safe(c)
  {
    var v := Token("b", c.minTtl + 1);
    RunRestore(c, s, 1);
    Wait(c, Restored(s, 1), c.grace);
    var s1 := Later(Restored(s, 1), c.grace);
    RunHeal(c, s1, 3, s1.lease.value);
    var s2 := Poised(Claimed(s1, 3, v, 1), 3, v, 1);
    RunWin(c, s2, 3);
    TwoHoldersRefute(c, Won(c, s2, 3), 2, 3);
  }

  lemma EchoingRefutes(c: Config, s: State, p: nat, e: nat, at: Time)
    requires ValidConfig(c) && c.generations >= 2 && c.minTtl <= p + e && 0 < p + e && e < c.settle
    requires Reach(c, s) && Echoing(c, s, p, e) && at == c.minTtl + 1 + p + e
    requires c.claimSlack.AtMost? ==> p + 2 * c.settle <= c.claimSlack.n
    requires c.overwriteSlack.AtMost? ==> c.settle - e <= c.overwriteSlack.n
    requires !Tight(c.reassertSlack, c.settle)
    ensures !Safe(c)
  {
    EchoingLands(c, s, p, e, at);
    LandsOnHolder(c, Won(c, Echoed(s, 1), 2), at);
  }

  /** Why leases must outlive the time their claimants have: an expired body is claimed while its own claimant can
      still re-assert it, and lands on the next holder. */
  lemma ShortLeases(c: Config, p: nat, e: nat)
    requires ValidConfig(c) && c.generations >= 2 && c.minTtl <= p + e && 0 < p + e && e < c.settle
    requires c.claimSlack.AtMost? ==> p + 2 * c.settle <= c.claimSlack.n
    requires c.overwriteSlack.AtMost? ==> p <= c.overwriteSlack.n && c.settle - e <= c.overwriteSlack.n
    requires c.releaseSlack.AtMost? ==> e <= c.releaseSlack.n
    requires !Tight(c.reassertSlack, c.settle)
    ensures !Safe(c)
  {
    RunShortStored(c, p);
    ShortIsHeld(c, p);
    var s, d := ShortStored(c, p), c.settle - e;
    RunEchoed(c, s, p, e, d);
    HeldEchoes(c, s, p, e, d);
    EchoingRefutes(c, ThenEchoed(c, s, e, d), p, e, c.minTtl + 1 + p + e);
  }

  // ---- the verdict race: needs no healing and no release ----

  /** The time asked for in this race, and the expiry after the first renewal. */
  function Ttl(c: Config): Time {
    c.minTtl + 6 * c.settle
  }

  function Expiry(c: Config): Time {
    2 * Ttl(c) - 3 * c.settle
  }

  /** A lease renewed once; a rival has read it before that renewal and not yet judged. */
  function Renewed(c: Config): State {
    var b := Body(U, Expiry(c), false);
    State(Ttl(c) - 2 * c.settle, Some(b), map[], map[U := 0, Token("b", 0) := 1],
          map[0 := Actor("a", Ttl(c), Ready, Some(b), false, Ticket(0, 0)),
              1 := Actor("b", Ttl(c), JudgeExisting(Body(U, Ttl(c), false)), None, false, Ticket(0, 0))], [U], [])
  }

  function Before(c: Config): State {
    var b := Body(U, Ttl(c), false);
    State(0, Some(b), map[], map[U := 0, Token("b", 0) := 1],
          map[0 := Actor("a", Ttl(c), Ready, Some(b), false, Ticket(0, 0)),
              1 := Actor("b", Ttl(c), Create(Body(Token("b", 0), Ttl(c), false), true), None, false, Ticket(0, 0))], [U], [])
  }

  lemma RunBefore(c: Config)
    requires ValidConfig(c)
    ensures Reach(c, Before(c))
  {
    Start(c);
    Enter(c, Init(), 0, "a", Ttl(c));
    var s1 := Entered(Init(), 0, "a", Ttl(c));
    Do(c, s1, Go(0));
    var s2 := Apply(c, s1, Go(0)).value;
    Enter(c, s2, 1, "b", Ttl(c));
    assert Entered(s2, 1, "b", Ttl(c)) == Before(c);
  }

  /** Renew up to its overwrite. */
  lemma RunRenewCheck(c: Config, s: State, a: ActorId)
    requires Reach(c, s) && a in s.actors && s.actors[a].pc == Ready && s.actors[a].grant.Some?
    requires Stores(s, s.actors[a].grant.value.token)
    requires s.clock + 2 * c.settle < s.lease.value.expiresAt < s.clock + s.actors[a].ttl
    ensures Reach(c, SetPC(s, a, RenewPut(s.lease.value.expiresAt, s.clock, s.clock + s.actors[a].ttl)))
  {
    var e := s.lease.value.expiresAt;
    Unmoved(s, a);
    DoMove(c, s, CallRenew(a), a, Ready, RenewCheck(e));
    DoMove(c, s, Go(a), a, RenewCheck(e), RenewStamp(e, s.clock));
    DoMove(c, s, Go(a), a, RenewStamp(e, s.clock), RenewPut(e, s.clock, s.clock + s.actors[a].ttl));
  }

  /** After the renewal of `a` was confirmed `d` later. */
  function Confirmed(s: State, a: ActorId, d: nat): State
    requires a in s.actors && s.actors[a].pc.RenewVerify? && s.actors[a].grant.Some?
  {
    SetGrant(Later(s, d), a, s.actors[a].grant.value.(expiresAt := s.actors[a].pc.next))
  }

  lemma RunConfirm(c: Config, s: State, a: ActorId, d: nat)
    requires Reach(c, s) && a in s.actors && s.actors[a].pc.RenewVerify? && s.actors[a].grant.Some?
    requires Stores(s, s.actors[a].grant.value.token) && s.actors[a].pc.putAt + c.settle <= s.clock + d
    ensures Reach(c, Confirmed(s, a, d))
  {
    Wait(c, s, d);
    Do(c, Later(s, d), Go(a));
  }

  lemma RunFirstReads(c: Config)
    requires ValidConfig(c)
    ensures Reach(c, SetPC(Before(c), 1, JudgeExisting(Body(U, Ttl(c), false))))
  {
    RunBefore(c);
    var s := Before(c);
    Unmoved(s, 1);
    DoMove(c, s, Go(1), 1, s.actors[1].pc, ReadExisting);
    DoMove(c, s, Go(1), 1, ReadExisting, JudgeExisting(Body(U, Ttl(c), false)));
  }

  /** The renewal pending at `a` has landed. */
  function RenewLanded(s: State, a: ActorId): State
    requires a in s.actors && s.actors[a].pc.RenewPut? && s.actors[a].grant.Some?
  {
    var next := s.actors[a].pc.next;
    SetPC(s.(lease := Some(s.actors[a].grant.value.(expiresAt := next))), a, RenewVerify(next, s.clock))
  }

  lemma RunRenewPut(c: Config, s: State, a: ActorId)
    requires Reach(c, s) && a in s.actors && s.actors[a].pc.RenewPut? && s.actors[a].grant.Some?
    requires Within(c.renewSlack, s.actors[a].pc.checkedAt, s.clock)
    ensures Reach(c, RenewLanded(s, a))
  {
    Do(c, s, Go(a));
  }

  function FirstRead(c: Config): State {
    SetPC(Before(c), 1, JudgeExisting(Body(U, Ttl(c), false)))
  }

  /** The first renewal is about to be stored. */
  function FirstRenewal(c: Config): State
    requires c.settle >= 0 && c.minTtl >= 0
  {
    var s := Later(FirstRead(c), Ttl(c) - 3 * c.settle);
    SetPC(s, 0, RenewPut(Ttl(c), s.clock, Expiry(c)))
  }

  lemma RunFirstRenewal(c: Config)
    requires ValidConfig(c)
    ensures Reach(c, FirstRenewal(c))
  {
    RunFirstReads(c);
    Wait(c, FirstRead(c), Ttl(c) - 3 * c.settle);
    RunRenewCheck(c, Later(FirstRead(c), Ttl(c) - 3 * c.settle), 0);
  }

  lemma FirstRenewalLands(c: Config)
    requires ValidConfig(c)
    ensures RenewLanded(FirstRenewal(c), 0).actors[0].pc.RenewVerify?
    ensures Confirmed(RenewLanded(FirstRenewal(c), 0), 0, c.settle) == Renewed(c)
  {
  }

  lemma RunRenewed(c: Config)
    requires ValidConfig(c)
    ensures Reach(c, Renewed(c))
  {
    RunFirstRenewal(c);
    RunRenewPut(c, FirstRenewal(c), 0);
    FirstRenewalLands(c);
    RunConfirm(c, RenewLanded(FirstRenewal(c), 0), 0, c.settle);
  }

  /** The last moment at which the renewed lease passes the margin check. */
  function LastCheck(c: Config): Time {
    Expiry(c) - 2 * c.settle - 1
  }

  /** The rival has re-read the lease just before the second renewal is stored. */
  function Racing(c: Config, r: nat): State {
    var w := LastCheck(c) + r;
    SetPC(SetPC(Renewed(c).(clock := w), 0, RenewPut(Expiry(c), LastCheck(c), LastCheck(c) + Ttl(c))),
          1, JudgeRecheck(Body(U, Ttl(c), false), Body(U, Expiry(c), false), w))
  }

  /** The rival is about to re-read, the second renewal has been checked. */
  function Abreast(c: Config): State {
    SetPC(SetPC(Renewed(c).(clock := LastCheck(c)), 1, Recheck(Body(U, Ttl(c), false))),
          0, RenewPut(Expiry(c), LastCheck(c), LastCheck(c) + Ttl(c)))
  }

  lemma RunAbreast(c: Config)
    requires ValidConfig(c)
    ensures Reach(c, Abreast(c))
  {
    RunRenewed(c);
    var prior, s := Body(U, Ttl(c), false), Renewed(c);
    Wait(c, s, LastCheck(c) - s.clock);
    var s1 := s.(clock := LastCheck(c));
    Unmoved(s1, 1);
    DoMove(c, s1, Go(1), 1, JudgeExisting(prior), Recheck(prior));
    RunRenewCheck(c, SetPC(s1, 1, Recheck(prior)), 0);
  }

  lemma RunRacing(c: Config, r: nat)
    requires ValidConfig(c)
    ensures Reach(c, Racing(c, r))
  {
    RunAbreast(c);
    var prior := Body(U, Ttl(c), false);
    Wait(c, Abreast(c), r);
    var s := Later(Abreast(c), r);
    Unmoved(s, 1);
    DoMove(c, s, Go(1), 1, Recheck(prior), JudgeRecheck(prior, Body(U, Expiry(c), false), s.clock));
    assert SetPC(s, 1, JudgeRecheck(prior, Body(U, Expiry(c), false), s.clock)) == Racing(c, r);
  }

  /** The renewal landed and was confirmed, yet the rival has judged the older body stale. */
  function Misjudged(c: Config): State {
    var b := Body(U, LastCheck(c) + Ttl(c), false);
    var s := Renewed(c);
    s.(clock := Expiry(c) + c.settle, lease := Some(b),
       actors := s.actors[0 := s.actors[0].(pc := Ready, grant := Some(b))][1 := s.actors[1].(pc := StampClaim(U, 0))])
  }

  /** The second renewal has landed, and the rival judges what it read before. */
  function Judging(c: Config, r: nat): State {
    SetPC(RenewLanded(Racing(c, r), 0).(clock := Expiry(c)), 1, StampClaim(U, 0))
  }

  lemma RunJudging(c: Config, r: nat, j: nat)
    requires ValidConfig(c) && r + j == 2 * c.settle + 1
    requires (c.renewSlack.AtMost? ==> r <= c.renewSlack.n) && (c.judgeSlack.AtMost? ==> j <= c.judgeSlack.n)
    ensures Reach(c, Judging(c, r))
  {
    RunRacing(c, r);
    RunRenewPut(c, Racing(c, r), 0);
    Wait(c, RenewLanded(Racing(c, r), 0), j);
    var s := RenewLanded(Racing(c, r), 0).(clock := Expiry(c));
    assert Later(RenewLanded(Racing(c, r), 0), j) == s;
    Unmoved(s, 1);
    DoMove(c, s, Go(1), 1, s.actors[1].pc, StampClaim(U, 0));
  }

  lemma JudgingEnds(c: Config, r: nat)
    requires ValidConfig(c) && r <= 2 * c.settle + 1
    ensures Judging(c, r).actors[0].pc.RenewVerify? && Judging(c, r).actors[0].pc.putAt <= Expiry(c)
    ensures Confirmed(Judging(c, r), 0, c.settle) == Misjudged(c)
  {
  }

  lemma RunMisjudged(c: Config, r: nat, j: nat)
    requires ValidConfig(c) && r + j == 2 * c.settle + 1
    requires (c.renewSlack.AtMost? ==> r <= c.renewSlack.n) && (c.judgeSlack.AtMost? ==> j <= c.judgeSlack.n)
    ensures Reach(c, Misjudged(c))
  {
    RunJudging(c, r, j);
    JudgingEnds(c, r);
    RunConfirm(c, Judging(c, r), 0, c.settle);
  }

  /** A renewal and a verdict that together outlast the expiry margin: the rival overwrites a renewed lease. */
  lemma LateVerdict(c: Config)
    requires ValidConfig(c) && !RenewFits(c)
    ensures !Safe(c)
  {
    var r: nat := if c.renewSlack.AtMost? && c.renewSlack.n <= 2 * c.settle then c.renewSlack.n else 2 * c.settle + 1;
    RunMisjudged(c, r, 2 * c.settle + 1 - r);
    var s := Misjudged(c);
    Unmoved(s, 1);
    RunClaim(c, s, 1, U, 0);
    var s1 := Claimed(s, 1, U, 0);
    RunPoise(c, s1, 1, U, 0);
    RunWin(c, Poised(s1, 1, U, 0), 1);
    TwoHoldersRefute(c, Won(c, Poised(s1, 1, U, 0), 1), 0, 1);
  }

  // ---- the condition ----

  /** What suffices: the renewal margin covers the delays that race across it; and claims are never healed, or every
      overwrite lands inside the settle window, or the grace period leaves claimants their time. */
  predicate TimelyEnough(c: Config) {
    RenewFits(c) && (c.generations == 1 || Prompt(c) || Graceful(c))
  }

  /** Claimants that take longer than the settle window fit into the grace period. */
  predicate ClaimsFitGrace(c: Config) {
    && c.releaseOnce && ClaimsExpire(c)
    && (c.releaseSlack.AtMost? ==> !OverlapsGrace(c))
  }

  /** What is needed. */
  predicate Needed(c: Config) {
    && RenewFits(c)
    && (c.generations == 1
        || (Tight(c.releaseSlack, c.settle)
            && (PromptOverwrites(c) || ClaimsFitGrace(c)) && (PromptReasserts(c) || ClaimsExpire(c))))
  }

  /** Where the two meet: no bound on a claimant but its reads, or none but its claim and leases that outlive it. */
  predicate ClearCut(c: Config) {
    || c.claimSlack.Unbounded?
    || (&& (c.overwriteSlack.AtMost? ==> c.claimSlack.n <= c.overwriteSlack.n)
        && (c.releaseSlack.AtMost? ==> c.claimSlack.n + c.releaseSlack.n < c.minTtl))
  }

  lemma TimelyIsSafe(c: Config)
    requires ValidConfig(c) && TimelyEnough(c)
    ensures Safe(c)
  {
    if c.generations == 1 {
      LeaseSuccession.ClaimsAloneExclude(c);
    } else if Prompt(c) {
      PromptWritesExclude(c);
    } else {
      GraceExcludes(c);
    }
  }

  lemma SafeNeeds(c: Config)
    requires ValidConfig(c) && !Needed(c)
    ensures !Safe(c)
  {
    if !RenewFits(c) {
      LateVerdict(c);
    } else if !Tight(c.releaseSlack, c.settle) {
      LateRelease(c);
    } else if !PromptReasserts(c) && !ClaimsExpire(c) {
      LateReassert(c);
    } else if !ClaimsExpire(c) {
      LateAge(c);
    } else if !c.releaseOnce {
      RepeatedRelease(c);
    } else {
      LateAbandon(c);
    }
  }

  /** Mutual exclusion in every run: sufficient for every timing, necessary for every timing, and the same condition
      wherever one kind of bound on claimants is in force. */
  lemma ExactTiming(c: Config)
    requires ValidConfig(c)
    ensures TimelyEnough(c) ==> Safe(c)
    ensures Safe(c) ==> Needed(c)
    ensures ClearCut(c) ==> (Safe(c) <==> TimelyEnough(c))
  {
    if TimelyEnough(c) { TimelyIsSafe(c); }
    if !Needed(c) { SafeNeeds(c); }
  }

  const SECOND: Time := 1_000_000_000
  const DEFAULT_SETTLE: Time := 400_000_000
  const DEFAULT_TTL: Time := 900 * SECOND
  const WEDGE_GRACE: Time := 3600 * SECOND

  /** The constants of the code: claimants that are done within fourteen minutes of their claim, and verdicts on a
      claim's age within half an hour of reading it, cannot break exclusion through any number of generations. */
  lemma DefaultsExclude(c: Config)
    requires c.settle == DEFAULT_SETTLE && c.grace == WEDGE_GRACE && c.minTtl == DEFAULT_TTL && c.generations >= 1
    requires RenewFits(c) && Tight(c.releaseSlack, c.settle) && c.releaseOnce
    requires c.claimSlack.AtMost? && c.claimSlack.n <= 840 * SECOND && c.ageSlack.AtMost? && c.ageSlack.n <= 1800 * SECOND
    ensures Safe(c)
  {
    TimelyIsSafe(c);
  }
}
