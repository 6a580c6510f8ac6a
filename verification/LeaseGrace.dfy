/** Mutual exclusion through the grace period.

    Here claimants may stall far longer than the settle window, as long as a claim is good for a bounded time and the
    grace period outlasts it.  At any moment at most one claimant can still write.  What it writes on is the grant it
    claimed, or one that an echo brought back and that nobody can claim before its time is over. */
module LeaseGrace {
  import opened Common
  import opened LeaseModel
  import opened LeaseInvariant
  import opened LeaseQuiet
  import opened LeaseClaims
  import opened LeaseSettle

  /** Room in the grace period for two claims in a row and an echo, and leases that outlive their claimants. */
  predicate Graceful(c: Config) {
    && c.releaseOnce && ClaimsExpire(c) && Tight(c.releaseSlack, c.settle) && c.settle <= c.claimSlack.n
    && 2 * c.claimSlack.n + c.releaseSlack.n < c.grace && c.claimSlack.n + c.releaseSlack.n < c.minTtl
  }

  // ---- what the invariant speaks of ----

  /** From the read with the claim in hand to the verdict on the own overwrite. */
  predicate Acting(pc: PC) {
    pc.MintSuccessor? || pc.Overwrite? || pc.Verify? || pc.Reassert?
  }

  predicate Busy(c: Config, s: State, a: ActorId) {
    a in s.actors && Acting(s.actors[a].pc) && InTime(c, s, s.actors[a])
  }

  /** Nobody can write on `w` with a claim on it until `until`: a claim younger than that stands in the way. */
  predicate BlockedBy(c: Config, s: State, w: Token, g: nat, until: Time) {
    ClaimKey(w, g) in s.claims && until < s.claims[ClaimKey(w, g)].claimedAt + c.grace
  }

  ghost predicate NoClaimant(c: Config, s: State, w: Token) {
    forall b :: b in s.actors && Claimant(s.actors[b].pc) && s.actors[b].pc.victim == w ==> !InTime(c, s, s.actors[b])
  }

  ghost predicate Blocked(c: Config, s: State, w: Token, until: Time) {
    NoClaimant(c, s, w) && exists g: nat :: BlockedBy(c, s, w, g, until)
  }

  predicate Releasing(pc: PC) {
    pc.ReleaseRead? || pc.ReleaseStamp? || pc.ReleasePut?
  }

  predicate SilentActor(x: Actor, w: Token) {
    && (Releasing(x.pc) || x.pc.Verify? || x.pc.Reassert? ==> x.pc.body.token != w)
    && (x.grant.Some? && x.grant.value.token == w ==> x.gaveUp)
  }

  /** The owner of grant `w` will never write a tombstone again. */
  predicate Silent(s: State, w: Token) {
    w in s.grants && w in s.minted && s.minted[w] in s.actors && SilentActor(s.actors[s.minted[w]], w)
  }

  /** What a claimant that can still write finds stored. */
  ghost predicate StoreFits(c: Config, s: State, a: ActorId)
    requires a in s.actors && Acting(s.actors[a].pc) && c.claimSlack.AtMost?
  {
    var x := s.actors[a];
    && s.lease.Some?
    && var w := s.lease.value.token;
       || w == x.pc.victim
       || (x.pc.Verify? && w == x.pc.body.token)
       || (Blocked(c, s, w, x.ticket.at + c.claimSlack.n) && Silent(s, w))
  }

  /** A tombstone that can still land. */
  predicate Burying(c: Config, s: State, f: ActorId) {
    && f in s.actors && (s.actors[f].pc.ReleaseStamp? || s.actors[f].pc.ReleasePut?)
    && Within(c.releaseSlack, s.actors[f].pc.readAt, s.clock)
  }

  /** The claim was won and its claimant is past its first overwrite. */
  predicate Used(s: State, k: ClaimKey) {
    && k in s.claims && s.claims[k].breaker in s.actors
    && var x := s.actors[s.claims[k].breaker];
       Claimant(x.pc) && KeyOf(x) == k ==> x.pc.Verify? || x.pc.Reassert?
  }

  predicate LeftBy(c: Config, s: State, u: Token, g: nat, readAt: Time)
    requires c.claimSlack.AtMost?
  {
    Used(s, ClaimKey(u, g)) && readAt <= s.claims[ClaimKey(u, g)].claimedAt + c.claimSlack.n
  }

  /** Since the read, a claimant of `u` has overwritten it. */
  ghost predicate Left(c: Config, s: State, u: Token, readAt: Time)
    requires c.claimSlack.AtMost?
  {
    exists g: nat :: LeftBy(c, s, u, g, readAt)
  }

  ghost predicate NoneBusy(c: Config, s: State) {
    forall a :: !Busy(c, s, a)
  }

  /** Until then nobody writes on `w`, and its owner will not bury it. */
  ghost predicate Untouchable(c: Config, s: State, w: Token, until: Time) {
    NoneBusy(c, s) && Blocked(c, s, w, until) && Silent(s, w)
  }

  /** What is stored under a tombstone in flight: its own grant, or one that stays live or silent until it lands. */
  ghost predicate BurialFits(c: Config, s: State, f: ActorId)
    requires Burying(c, s, f) && c.claimSlack.AtMost? && c.releaseSlack.AtMost?
  {
    var u, readAt := s.actors[f].pc.body.token, s.actors[f].pc.readAt;
    && s.lease.Some?
    && var b := s.lease.value;
       || b.token == u
       || ((b.released || readAt + c.releaseSlack.n < b.expiresAt)
           && (|| Left(c, s, u, readAt)
               || Untouchable(c, s, b.token, readAt + c.releaseSlack.n)))
  }

  ghost predicate ClaimsAreQuiet(s: State) {
    forall k :: k in s.claims ==> k.victim in s.grants && Quiet(s, k.victim)
  }

  predicate TombIsSilent(s: State) {
    s.lease.Some? && s.lease.value.released ==> Silent(s, s.lease.value.token)
  }

  ghost predicate OneBusy(c: Config, s: State) {
    forall a, b :: Busy(c, s, a) && Busy(c, s, b) ==> a == b
  }

  ghost predicate BusyFit(c: Config, s: State)
    requires c.claimSlack.AtMost?
  {
    forall a :: Busy(c, s, a) ==> StoreFits(c, s, a)
  }

  ghost predicate BurialsFit(c: Config, s: State)
    requires c.claimSlack.AtMost? && c.releaseSlack.AtMost?
  {
    forall f :: Burying(c, s, f) ==> BurialFits(c, s, f)
  }

  /** Of two tombstones in flight one is for the stored grant. */
  ghost predicate OneAway(c: Config, s: State) {
    forall f, f' :: Burying(c, s, f) && Burying(c, s, f') && f != f' ==>
      Stores(s, s.actors[f].pc.body.token) || Stores(s, s.actors[f'].pc.body.token)
  }

  ghost predicate GraceInv(c: Config, s: State)
    requires Graceful(c)
  {
    && ClaimsAreQuiet(s) && TombIsSilent(s) && OneBusy(c, s) && BusyFit(c, s) && BurialsFit(c, s) && OneAway(c, s)
  }

  /** All that is known of a reachable state. */
  ghost predicate Known(c: Config, s: State)
    requires Graceful(c)
  {
    Inv(c, s) && QuietInv(c, s) && TicketsOK(c, s) && GenerationsOK(c, s) && GraceInv(c, s)
  }

  lemma KnownIsHarmless(c: Config, s: State)
    requires Graceful(c) && Known(c, s)
    ensures Harmless(c, s)
  {
    forall f | f in s.actors
      ensures WritesHarmlessly(c, s, f)
    {
      if Busy(c, s, f) {
        assert StoreFits(c, s, f) && Judged(c, s, s.actors[f]);
      }
    }
  }

  // ---- how one actor moves ----

  /** The moves that matter here, and what they find or leave in the store. */
  predicate Shift(c: Config, s: State, s': State, a: ActorId)
    requires a in s'.actors
  {
    var x' := s'.actors[a];
    && (x'.pc.MintSuccessor? ==> a in s.actors && s'.lease == s.lease && s.actors[a].pc.Reread?
                                 && Stores(s, x'.pc.victim) && SameClaim(s.actors[a], x'))
    && (x'.pc.Overwrite? ==> a in s.actors && s'.lease == s.lease && s.actors[a].pc.MintSuccessor?
                             && SameClaim(s.actors[a], x'))
    && (x'.pc.Reassert? ==> a in s.actors && s'.lease == s.lease && s.actors[a].pc.Verify?
                            && Stores(s, x'.pc.victim) && SameClaim(s.actors[a], x') && x'.pc.body == s.actors[a].pc.body)
    && (x'.pc.Verify? ==> a in s.actors && s'.lease == Some(x'.pc.body) && InTime(c, s, s.actors[a])
                          && (s.actors[a].pc.Overwrite? || s.actors[a].pc.Reassert?)
                          && SameClaim(s.actors[a], x') && x'.pc.body == s.actors[a].pc.body)
    && (x'.pc.ReleaseStamp? ==> a in s.actors && s'.lease == s.lease && s.actors[a].pc == ReleaseRead(x'.pc.body)
                                && Stores(s, x'.pc.body.token) && x'.pc.readAt == s.clock)
    && (x'.pc.ReleasePut? ==> a in s.actors && s'.lease == s.lease
                              && s.actors[a].pc == ReleaseStamp(x'.pc.body, x'.pc.readAt))
    && (x'.pc.Reread? ==> a in s.actors && s'.lease == s.lease && s.actors[a].pc.PutClaim?)
    && (x'.pc.DropClaim? ==> a in s.actors && s'.lease == s.lease && (s.actors[a].pc.Reread? || s.actors[a].pc.Overwrite?))
  }

  predicate SameClaim(x: Actor, x': Actor) {
    Claimant(x.pc) && Claimant(x'.pc) && x.pc.victim == x'.pc.victim && x.ticket == x'.ticket
  }

  lemma ShiftAcquire(c: Config, s: State, a: ActorId)
    requires a in s.actors && (GoAcquire(c, s, a).Some? || GoClaim(c, s, a).Some?)
    ensures Shift(c, s, Advance(c, s, a).value, a)
  {
  }

  lemma ShiftReclaim(c: Config, s: State, a: ActorId)
    requires a in s.actors && GoReclaim(c, s, a).Some?
    ensures Shift(c, s, GoReclaim(c, s, a).value, a)
  {
  }

  lemma ShiftHolder(c: Config, s: State, a: ActorId)
    requires a in s.actors && GoHolder(c, s, a).Some?
    ensures Shift(c, s, GoHolder(c, s, a).value, a)
  {
  }

  lemma ShiftCall(c: Config, s: State, act: Action)
    requires !act.Tick? && !act.Go? && Apply(c, s, act).Some?
    ensures Shift(c, s, Apply(c, s, act).value, act.a)
  {
  }

  lemma StepShifts(c: Config, s: State, act: Action)
    requires !act.Tick? && Apply(c, s, act).Some?
    ensures act.a in Apply(c, s, act).value.actors && Shift(c, s, Apply(c, s, act).value, act.a)
  {
    if !act.Go? {
      ShiftCall(c, s, act);
    } else if GoReclaim(c, s, act.a).Some? {
      ShiftReclaim(c, s, act.a);
    } else if GoHolder(c, s, act.a).Some? {
      ShiftHolder(c, s, act.a);
    } else {
      ShiftAcquire(c, s, act.a);
    }
  }

  /** A claimant was one before, with the same claim, or has just won its claim. */
  predicate ClaimKept(s: State, s': State, a: ActorId)
    requires a in s'.actors
  {
    Claimant(s'.actors[a].pc) ==>
      a in s.actors && (SameClaim(s.actors[a], s'.actors[a]) || (s.actors[a].pc.PutClaim? && s'.claims != s.claims))
  }

  lemma ClaimKeptAcquire(c: Config, s: State, a: ActorId)
    requires a in s.actors && (GoAcquire(c, s, a).Some? || GoClaim(c, s, a).Some?)
    ensures ClaimKept(s, Advance(c, s, a).value, a)
  {
  }

  lemma ClaimKeptReclaim(c: Config, s: State, a: ActorId)
    requires a in s.actors && (GoReclaim(c, s, a).Some? || GoHolder(c, s, a).Some?)
    ensures ClaimKept(s, Advance(c, s, a).value, a)
  {
  }

  lemma ClaimKeptCall(c: Config, s: State, act: Action)
    requires !act.Tick? && !act.Go? && Apply(c, s, act).Some?
    ensures ClaimKept(s, Apply(c, s, act).value, act.a)
  {
  }

  lemma StepKeepsClaim(c: Config, s: State, act: Action)
    requires !act.Tick? && Apply(c, s, act).Some?
    ensures act.a in Apply(c, s, act).value.actors && ClaimKept(s, Apply(c, s, act).value, act.a)
  {
    if !act.Go? {
      ClaimKeptCall(c, s, act);
    } else if GoReclaim(c, s, act.a).Some? || GoHolder(c, s, act.a).Some? {
      ClaimKeptReclaim(c, s, act.a);
    } else {
      ClaimKeptAcquire(c, s, act.a);
    }
  }

  // ---- what a step leaves alone ----

  /** Time passes, one actor moves as above, and claims change as above. */
  ghost predicate Frame(c: Config, s: State, s': State, a: ActorId) {
    && s.clock <= s'.clock
    && (forall b :: b != a ==> (b in s'.actors <==> b in s.actors) && (b in s.actors ==> s'.actors[b] == s.actors[b]))
    && (a in s.actors ==> a in s'.actors)
    && (a in s'.actors && !(a in s.actors && s'.actors[a] == s.actors[a]) ==> ClaimKept(s, s', a))
    && ClaimsChange(c, s, s', a)
  }

  lemma StepFrames(c: Config, s: State, act: Action)
    requires Inv(c, s) && Apply(c, s, act).Some?
    ensures Frame(c, s, Apply(c, s, act).value, if act.Tick? then 0 else act.a)
  {
    var s' := Apply(c, s, act).value;
    ClockNeverRunsBack(c, s, act);
    forall b | act.Tick? || b != act.a
      ensures (b in s'.actors <==> b in s.actors) && (b in s.actors ==> s'.actors[b] == s.actors[b])
    {
      OnlyOneMoves(c, s, act, b);
    }
    if !act.Tick? {
      StepChangesClaims(c, s, act);
      StepKeepsClaim(c, s, act);
    }
  }

  /** The mover's own claim stands in the way of nobody's block. */
  lemma NoClaimantStays(c: Config, s: State, s': State, a: ActorId, w: Token, until: Time, g: nat)
    requires ClaimsExpire(c) && Frame(c, s, s', a) && TicketsOK(c, s) && GenerationsOK(c, s)
    requires NoClaimant(c, s, w) && BlockedBy(c, s, w, g, until) && s.clock <= until
    ensures NoClaimant(c, s', w)
  {
    if a in s.actors { assert LoopOK(c, s, s.actors[a]); }
    assert Passed(c, s, w, g, s.claims[ClaimKey(w, g)].claimedAt);
    forall b | b in s'.actors && Claimant(s'.actors[b].pc) && s'.actors[b].pc.victim == w
      ensures !InTime(c, s', s'.actors[b])
    {
    }
  }

  lemma BlockStays(c: Config, s: State, s': State, a: ActorId, w: Token, until: Time, g: nat)
    requires ClaimsExpire(c) && Frame(c, s, s', a) && TicketsOK(c, s)
    requires NoClaimant(c, s, w) && BlockedBy(c, s, w, g, until)
    ensures BlockedBy(c, s', w, g, until)
  {
    if a in s.actors { assert TicketOK(c, s, a, s.actors[a]); }
  }

  lemma BlockedStays(c: Config, s: State, s': State, a: ActorId, w: Token, until: Time)
    requires ClaimsExpire(c) && Frame(c, s, s', a) && TicketsOK(c, s) && GenerationsOK(c, s)
    requires Blocked(c, s, w, until) && s.clock <= until
    ensures Blocked(c, s', w, until)
  {
    var g: nat :| BlockedBy(c, s, w, g, until);
    NoClaimantStays(c, s, s', a, w, until, g);
    BlockStays(c, s, s', a, w, until, g);
  }

  lemma LeftStays(c: Config, s: State, s': State, a: ActorId, u: Token, readAt: Time)
    requires ClaimsExpire(c) && Frame(c, s, s', a) && TicketsOK(c, s) && Left(c, s, u, readAt)
    requires a in s'.actors && !(a in s.actors && s'.actors[a] == s.actors[a]) ==> Shift(c, s, s', a)
    ensures Left(c, s', u, readAt)
  {
    var g: nat :| LeftBy(c, s, u, g, readAt);
    if a in s.actors { assert TicketOK(c, s, a, s.actors[a]); }
    assert LeftBy(c, s', u, g, readAt);
  }

  // ---- silence ----

  lemma SilentReclaim(c: Config, s: State, a: ActorId, w: Token)
    requires LocalInv(c, s, a) && w in s.grants && SilentActor(s.actors[a], w)
    requires GoReclaim(c, s, a).Some? || GoClaim(c, s, a).Some?
    ensures SilentActor(Advance(c, s, a).value.actors[a], w)
  {
  }

  lemma SilentAcquire(c: Config, s: State, a: ActorId, w: Token)
    requires LocalInv(c, s, a) && w in s.grants && SilentActor(s.actors[a], w)
    requires GoAcquire(c, s, a).Some?
    ensures SilentActor(GoAcquire(c, s, a).value.actors[a], w)
  {
  }

  lemma SilentHolder(c: Config, s: State, a: ActorId, w: Token)
    requires LocalInv(c, s, a) && w in s.grants && SilentActor(s.actors[a], w)
    requires GoHolder(c, s, a).Some?
    ensures SilentActor(GoHolder(c, s, a).value.actors[a], w)
  {
  }

  lemma SilentCall(c: Config, s: State, act: Action, w: Token)
    requires c.releaseOnce && (act.Fail? || act.CallRenew? || act.CallRelease?)
    requires LocalInv(c, s, act.a) && w in s.grants && SilentActor(s.actors[act.a], w) && Apply(c, s, act).Some?
    ensures SilentActor(Apply(c, s, act).value.actors[act.a], w)
  {
  }

  lemma SilentMoves(c: Config, s: State, act: Action, w: Token)
    requires c.releaseOnce && !act.Tick? && !act.Begin? && Apply(c, s, act).Some?
    requires LocalInv(c, s, act.a) && w in s.grants && SilentActor(s.actors[act.a], w)
    ensures SilentActor(Apply(c, s, act).value.actors[act.a], w)
  {
    if !act.Go? {
      SilentCall(c, s, act, w);
    } else if GoAcquire(c, s, act.a).Some? {
      SilentAcquire(c, s, act.a, w);
    } else if GoHolder(c, s, act.a).Some? {
      SilentHolder(c, s, act.a, w);
    } else {
      SilentReclaim(c, s, act.a, w);
    }
  }

  lemma HistoryStays(c: Config, s: State, act: Action, w: Token)
    requires Inv(c, s) && Apply(c, s, act).Some? && w in s.grants
    ensures w in Apply(c, s, act).value.grants && w in s.minted
    ensures w in Apply(c, s, act).value.minted && Apply(c, s, act).value.minted[w] == s.minted[w]
  {
    if !act.Tick? && !Grows(s, act) {
      InvIsLocal(c, s, act.a);
      StepMoves(c, s, act);
    }
  }

  lemma SilentStays(c: Config, s: State, act: Action, w: Token)
    requires c.releaseOnce && Inv(c, s) && Silent(s, w) && Apply(c, s, act).Some?
    ensures Silent(Apply(c, s, act).value, w)
  {
    var o := s.minted[w];
    HistoryStays(c, s, act, w);
    if act.Tick? || act.a != o {
      OnlyOneMoves(c, s, act, o);
    } else {
      assert !act.Begin?;
      InvIsLocal(c, s, o);
      SilentMoves(c, s, act, w);
      OnlyOneMovesIn(c, s, act);
    }
  }

  lemma OnlyOneMovesIn(c: Config, s: State, act: Action)
    requires !act.Tick? && Apply(c, s, act).Some?
    ensures act.a in Apply(c, s, act).value.actors
  {
    StepShifts(c, s, act);
  }

  /** Once its tombstone has landed, a holder is silent. */
  lemma TombSilences(c: Config, s: State, a: ActorId)
    requires c.releaseOnce && Inv(c, s) && a in s.actors && s.actors[a].pc.ReleasePut? && GoHolder(c, s, a).Some?
    ensures Silent(GoHolder(c, s, a).value, s.actors[a].pc.body.token)
  {
    InvIsLocal(c, s, a);
  }

  // ---- claims stay quiet ----

  lemma ClaimsStayQuiet(c: Config, s: State, act: Action)
    requires RenewFits(c) && Inv(c, s) && QuietInv(c, s) && ClaimsAreQuiet(s) && Apply(c, s, act).Some?
    ensures ClaimsAreQuiet(Apply(c, s, act).value)
  {
    var s' := Apply(c, s, act).value;
    StepFrames(c, s, act);
    forall k | k in s'.claims
      ensures k.victim in s'.grants && Quiet(s', k.victim)
    {
      if k !in s.claims {
        InvIsLocal(c, s, act.a);
        assert Judged(c, s, s.actors[act.a]);
      }
      HistoryStays(c, s, act, k.victim);
      QuietStep(c, s, act, k.victim);
    }
  }

  // ---- steps that leave the stored grant alone ----

  /** Busy and Burying only get fewer by the passing of time. */
  lemma StillBusy(c: Config, s: State, s': State, b: ActorId)
    requires c.claimSlack.AtMost? && s.clock <= s'.clock && Busy(c, s', b)
    requires b in s.actors && (s'.actors[b] == s.actors[b] || (Acting(s.actors[b].pc) && SameClaim(s.actors[b], s'.actors[b])))
    ensures Busy(c, s, b)
  {
  }

  /** A claimant that reads its victim with time left is the only one. */
  lemma BusyAlone(c: Config, s: State, a: ActorId, q: ActorId)
    requires Graceful(c) && Known(c, s) && a in s.actors && s.actors[a].pc.Reread? && InTime(c, s, s.actors[a])
    requires Stores(s, s.actors[a].pc.victim)
    ensures !Busy(c, s, q)
  {
    if Busy(c, s, q) {
      InvIsLocal(c, s, q);
      assert StoreFits(c, s, q) && Judged(c, s, s.actors[a]) && TicketOK(c, s, q, s.actors[q]);
      if s.actors[q].pc.victim == s.actors[a].pc.victim { ClaimantsTakeTurns(c, s, a, q); }
      assert false;
    }
  }

  /** Who becomes busy by a step finds its victim stored and nobody else busy. */
  lemma BusyBefore(c: Config, s: State, act: Action, b: ActorId)
    requires Graceful(c) && Known(c, s) && Apply(c, s, act).Some? && Busy(c, Apply(c, s, act).value, b)
    ensures Busy(c, s, b) || (NoneBusy(c, s) && b in s.actors && s.actors[b].pc.Reread? && InTime(c, s, s.actors[b])
                              && Stores(s, s.actors[b].pc.victim) && !act.Tick? && b == act.a)
  {
    var s' := Apply(c, s, act).value;
    StepFrames(c, s, act);
    if act.Tick? || b != act.a {
      StillBusy(c, s, s', b);
    } else {
      StepShifts(c, s, act);
      if s'.actors[b].pc.MintSuccessor? {
        forall q
          ensures !Busy(c, s, q)
        {
          BusyAlone(c, s, b, q);
        }
      } else {
        StillBusy(c, s, s', b);
      }
    }
  }

  lemma StaysOneBusy(c: Config, s: State, act: Action)
    requires Graceful(c) && Known(c, s) && Apply(c, s, act).Some?
    ensures OneBusy(c, Apply(c, s, act).value)
  {
    var s' := Apply(c, s, act).value;
    forall p, q | Busy(c, s', p) && Busy(c, s', q)
      ensures p == q
    {
      BusyBefore(c, s, act, p);
      BusyBefore(c, s, act, q);
    }
  }

  /** The stored grant is the same after the step. */
  predicate SameGrantStored(s: State, s': State) {
    s.lease.Some? && s'.lease.Some? && s'.lease.value.token == s.lease.value.token
  }

  lemma BlockedAndSilentStay(c: Config, s: State, act: Action, w: Token, until: Time)
    requires Graceful(c) && Inv(c, s) && TicketsOK(c, s) && GenerationsOK(c, s) && Apply(c, s, act).Some?
    requires Blocked(c, s, w, until) && Silent(s, w) && s.clock <= until
    ensures Blocked(c, Apply(c, s, act).value, w, until) && Silent(Apply(c, s, act).value, w)
  {
    StepFrames(c, s, act);
    BlockedStays(c, s, Apply(c, s, act).value, if act.Tick? then 0 else act.a, w, until);
    SilentStays(c, s, act, w);
  }

  /** A claimant that stays busy keeps its claim and, if it has written, its body. */
  lemma BusyKeeps(c: Config, s: State, act: Action, b: ActorId)
    requires Inv(c, s) && Apply(c, s, act).Some? && b in s.actors && Acting(s.actors[b].pc) && Busy(c, Apply(c, s, act).value, b)
    ensures var x, x' := s.actors[b], Apply(c, s, act).value.actors[b];
            && x'.pc.victim == x.pc.victim && x'.ticket == x.ticket
            && (x.pc.Verify? ==> (x'.pc.Verify? && x'.pc.body == x.pc.body) || Stores(s, x.pc.victim))
  {
    StepFrames(c, s, act);
    if !act.Tick? { StepShifts(c, s, act); }
  }

  lemma BusyStillFits(c: Config, s: State, act: Action, b: ActorId)
    requires Graceful(c) && Known(c, s) && Apply(c, s, act).Some? && Busy(c, Apply(c, s, act).value, b)
    requires SameGrantStored(s, Apply(c, s, act).value)
    ensures StoreFits(c, Apply(c, s, act).value, b)
  {
    var w := s.lease.value.token;
    BusyBefore(c, s, act, b);
    if Busy(c, s, b) {
      assert StoreFits(c, s, b);
      BusyKeeps(c, s, act, b);
      var until := s.actors[b].ticket.at + c.claimSlack.n;
      if Blocked(c, s, w, until) && Silent(s, w) {
        BlockedAndSilentStay(c, s, act, w, until);
      }
    } else {
      StepShifts(c, s, act);
    }
  }

  /** A tombstone in flight was in flight before, or has just been justified. */
  lemma BuryingBefore(c: Config, s: State, act: Action, f: ActorId)
    requires Graceful(c) && Inv(c, s) && Apply(c, s, act).Some? && Burying(c, Apply(c, s, act).value, f)
    ensures var s' := Apply(c, s, act).value;
            && f in s.actors
            && (|| (Burying(c, s, f) && s.actors[f].pc.body == s'.actors[f].pc.body && s.actors[f].pc.readAt == s'.actors[f].pc.readAt)
                || (s'.lease == s.lease && Stores(s, s'.actors[f].pc.body.token)))
  {
    StepFrames(c, s, act);
    if !act.Tick? { StepShifts(c, s, act); }
  }

  lemma NoneBusyStays(c: Config, s: State, act: Action, until: Time)
    requires Graceful(c) && Known(c, s) && Apply(c, s, act).Some? && NoneBusy(c, s) && s.lease.Some?
    requires Blocked(c, s, s.lease.value.token, until)
    ensures NoneBusy(c, Apply(c, s, act).value)
  {
    var s' := Apply(c, s, act).value;
    forall b
      ensures !Busy(c, s', b)
    {
      if Busy(c, s', b) { BusyBefore(c, s, act, b); }
    }
  }

  lemma UntouchableStays(c: Config, s: State, act: Action, until: Time)
    requires Graceful(c) && Known(c, s) && Apply(c, s, act).Some? && s.lease.Some? && s.clock <= until
    requires Untouchable(c, s, s.lease.value.token, until)
    ensures Untouchable(c, Apply(c, s, act).value, s.lease.value.token, until)
  {
    NoneBusyStays(c, s, act, until);
    BlockedAndSilentStay(c, s, act, s.lease.value.token, until);
  }

  lemma StepKeepsLeft(c: Config, s: State, act: Action, u: Token, readAt: Time)
    requires ClaimsExpire(c) && Inv(c, s) && TicketsOK(c, s) && Apply(c, s, act).Some? && Left(c, s, u, readAt)
    ensures Left(c, Apply(c, s, act).value, u, readAt)
  {
    StepFrames(c, s, act);
    if !act.Tick? { StepShifts(c, s, act); }
    LeftStays(c, s, Apply(c, s, act).value, if act.Tick? then 0 else act.a, u, readAt);
  }

  /** The same tombstone in flight over the same grant. */
  lemma BurialCarries(c: Config, s: State, s': State, f: ActorId, u: Token, readAt: Time, w: Token, until: Time)
    requires c.claimSlack.AtMost? && c.releaseSlack.AtMost? && until == readAt + c.releaseSlack.n
    requires Burying(c, s, f) && Burying(c, s', f) && BurialFits(c, s, f) && Stores(s, w) && SameGrantStored(s, s')
    requires s'.lease == s.lease || s'.lease.value.released
    requires u == s.actors[f].pc.body.token == s'.actors[f].pc.body.token
    requires readAt == s.actors[f].pc.readAt == s'.actors[f].pc.readAt
    requires Left(c, s, u, readAt) ==> Left(c, s', u, readAt)
    requires Untouchable(c, s, w, until) ==> Untouchable(c, s', w, until)
    ensures BurialFits(c, s', f)
  {
  }

  lemma BurialGoesOn(c: Config, s: State, act: Action, s': State, f: ActorId)
    requires Graceful(c) && Known(c, s) && Apply(c, s, act) == Some(s') && Burying(c, s, f) && Burying(c, s', f)
    requires SameGrantStored(s, s') && (s'.lease == s.lease || s'.lease.value.released)
    requires s.actors[f].pc.body.token == s'.actors[f].pc.body.token && s.actors[f].pc.readAt == s'.actors[f].pc.readAt
    ensures BurialFits(c, s', f)
  {
    var u, readAt, w := s.actors[f].pc.body.token, s.actors[f].pc.readAt, s.lease.value.token;
    var until := readAt + c.releaseSlack.n;
    if Left(c, s, u, readAt) {
      StepKeepsLeft(c, s, act, u, readAt);
    }
    if Untouchable(c, s, w, until) {
      UntouchableStays(c, s, act, until);
    }
    BurialCarries(c, s, s', f, u, readAt, w, until);
  }

  lemma BurialStillFits(c: Config, s: State, act: Action, s': State, f: ActorId)
    requires Graceful(c) && Known(c, s) && Apply(c, s, act) == Some(s') && Burying(c, s', f)
    requires SameGrantStored(s, s') && (s'.lease == s.lease || s'.lease.value.released)
    ensures BurialFits(c, s', f)
  {
    BuryingBefore(c, s, act, f);
    if !Stores(s, s'.actors[f].pc.body.token) {
      BurialGoesOn(c, s, act, s', f);
    }
  }

  lemma StillOneAway(c: Config, s: State, act: Action)
    requires Graceful(c) && Known(c, s) && Apply(c, s, act).Some? && SameGrantStored(s, Apply(c, s, act).value)
    ensures OneAway(c, Apply(c, s, act).value)
  {
    var s' := Apply(c, s, act).value;
    forall f, f' | Burying(c, s', f) && Burying(c, s', f') && f != f'
      ensures Stores(s', s'.actors[f].pc.body.token) || Stores(s', s'.actors[f'].pc.body.token)
    {
      BuryingBefore(c, s, act, f);
      BuryingBefore(c, s, act, f');
    }
  }

  // ---- steps that write ----

  /** Who may change what is stored. */
  lemma WhoWrites(c: Config, s: State, act: Action)
    requires Apply(c, s, act).Some? && Apply(c, s, act).value.lease != s.lease
    ensures act.Go? && act.a in s.actors
    ensures var x, s' := s.actors[act.a], Apply(c, s, act).value;
            || (x.pc.Create? && s.lease.None? && s'.lease == Some(x.pc.body) && !Acting(s'.actors[act.a].pc))
            || ((x.pc.Overwrite? || x.pc.Reassert?) && InTime(c, s, x) && s'.lease == Some(x.pc.body)
                && s'.actors[act.a].pc.Verify? && s'.actors[act.a].pc.body == x.pc.body)
            || (x.pc.RenewPut? && x.grant.Some? && s'.lease.Some? && !s'.lease.value.released == !x.grant.value.released
                && s'.lease.value.token == x.grant.value.token)
            || (x.pc.ReleasePut? && Within(c.releaseSlack, x.pc.readAt, s.clock) && s'.lease.Some?
                && s'.lease.value.released && s'.lease.value.token == x.pc.body.token
                && !Releasing(s'.actors[act.a].pc))
  {
  }

  lemma TombStaysSilent(c: Config, s: State, act: Action)
    requires Graceful(c) && Known(c, s) && Apply(c, s, act).Some?
    ensures TombIsSilent(Apply(c, s, act).value)
  {
    var s' := Apply(c, s, act).value;
    if s'.lease.Some? && s'.lease.value.released {
      if s'.lease == s.lease {
        SilentStays(c, s, act, s.lease.value.token);
      } else {
        WhoWrites(c, s, act);
        InvIsLocal(c, s, act.a);
        TombSilences(c, s, act.a);
      }
    }
  }

  /** A renewal that can still land finds its own grant stored and no tombstone in flight. */
  lemma RenewalMeetsNoBurial(c: Config, s: State, act: Action, f: ActorId)
    requires Graceful(c) && RenewFits(c) && Known(c, s) && SettleInv(c, s) && Apply(c, s, act).Some?
    requires act.Go? && act.a in s.actors && s.actors[act.a].pc.RenewPut?
    ensures s.actors[act.a].grant.Some? && Stores(s, s.actors[act.a].grant.value.token)
    ensures !Burying(c, s, f)
  {
    InvIsLocal(c, s, act.a);
    var u := s.actors[act.a].grant.value.token;
    assert Undisturbed(c, s, act.a);
    if Quiet(s, u) { RenewalIsEarly(c, s, act, u, s.clock); }
    assert Clear(c, s, act.a, s.clock - c.settle);
  }

  /** The claim that left `u` behind keeps everybody else from it until `until`. */
  lemma LeftIsBlocked(c: Config, s: State, u: Token, readAt: Time, until: Time)
    requires Graceful(c) && Known(c, s) && Left(c, s, u, readAt) && s.clock <= readAt + c.releaseSlack.n
    requires until <= s.clock + c.claimSlack.n
    requires forall b :: Busy(c, s, b) ==> s.actors[b].pc.victim != u
    ensures Blocked(c, s, u, until)
  {
    var g: nat :| LeftBy(c, s, u, g, readAt);
    var k := ClaimKey(u, g);
    assert BlockedBy(c, s, u, g, until);
    forall d | d in s.actors && Claimant(s.actors[d].pc) && s.actors[d].pc.victim == u
      ensures !InTime(c, s, s.actors[d])
    {
      assert TicketOK(c, s, d, s.actors[d]);
      var j := s.actors[d].ticket.gen;
      assert Passed(c, s, u, g, s.claims[k].claimedAt) && Passed(c, s, u, j, s.actors[d].ticket.at);
      if j == g && InTime(c, s, s.actors[d]) { assert Busy(c, s, d); }
    }
  }

  /** The grant stored under a tombstone in flight is not silent. */
  lemma BuryingIsNotSilent(c: Config, s: State, f: ActorId)
    requires Inv(c, s) && Burying(c, s, f)
    ensures Mine(s, f, s.actors[f].pc.body.token) && !Silent(s, s.actors[f].pc.body.token)
    ensures s.actors[f].pc.readAt <= s.clock
  {
    InvIsLocal(c, s, f);
  }

  /** Nobody is busy while a tombstone for the stored grant flies beside one for a grant left before. */
  lemma NoneBusyBeside(c: Config, s: State, b: ActorId, f: ActorId, f': ActorId)
    requires Graceful(c) && Known(c, s) && Burying(c, s, f) && Burying(c, s, f')
    requires Stores(s, s.actors[f].pc.body.token) && !Stores(s, s.actors[f'].pc.body.token)
    ensures !Busy(c, s, b)
  {
    BuryingIsNotSilent(c, s, f);
    assert BurialFits(c, s, f');
    if b in s.actors {
      InvIsLocal(c, s, b);
      assert Judged(c, s, s.actors[b]);
    }
    assert BusyFit(c, s);
  }

  // ---- an echo: a tombstone lands on another grant ----

  /** Actor `f` has a tombstone in flight for a grant that is not stored. */
  ghost predicate Echoes(c: Config, s: State, f: ActorId) {
    Burying(c, s, f) && s.lease.Some? && !Stores(s, s.actors[f].pc.body.token)
  }

  /** The step in which that tombstone lands. */
  ghost predicate Landed(c: Config, s: State, s': State, f: ActorId)
    requires Burying(c, s, f)
  {
    var u := s.actors[f].pc.body.token;
    && Frame(c, s, s', f) && s'.clock == s.clock && s'.lease.Some? && s'.lease.value.released
    && s'.lease.value.token == u && Silent(s', u) && !Burying(c, s', f) && !Busy(c, s', f)
  }

  /** The step itself. */
  lemma TombLands(c: Config, s: State, f: ActorId)
    requires f in s.actors && s.actors[f].pc.ReleasePut? && Apply(c, s, Go(f)).Some?
    ensures var s' := Apply(c, s, Go(f)).value;
            && s'.clock == s.clock && s'.lease.Some? && s'.lease.value.released
            && s'.lease.value.token == s.actors[f].pc.body.token && !Burying(c, s', f) && !Busy(c, s', f)
    ensures Apply(c, s, Go(f)) == GoHolder(c, s, f)
  {
  }

  lemma EchoLands(c: Config, s: State, f: ActorId)
    requires c.releaseOnce && Inv(c, s) && Echoes(c, s, f) && s.actors[f].pc.ReleasePut? && Apply(c, s, Go(f)).Some?
    ensures Landed(c, s, Apply(c, s, Go(f)).value, f)
  {
    TombLands(c, s, f);
    TombSilences(c, s, f);
    StepFrames(c, s, Go(f));
  }

  /** Before it lands: the grant that the echo brings back is blocked for the time of whoever is busy. */
  lemma EchoIsBlocked(c: Config, s: State, f: ActorId, b: ActorId, until: Time)
    requires Graceful(c) && Known(c, s) && Echoes(c, s, f) && Busy(c, s, b)
    requires s.actors[b].pc.victim != s.actors[f].pc.body.token && until == s.actors[b].ticket.at + c.claimSlack.n
    ensures Blocked(c, s, s.actors[f].pc.body.token, until)
  {
    assert BurialFits(c, s, f) && TicketOK(c, s, b, s.actors[b]);
    LeftIsBlocked(c, s, s.actors[f].pc.body.token, s.actors[f].pc.readAt, until);
  }

  lemma BlockedFits(c: Config, s: State, b: ActorId, w: Token, until: Time)
    requires Busy(c, s, b) && c.claimSlack.AtMost? && Stores(s, w) && Silent(s, w)
    requires until == s.actors[b].ticket.at + c.claimSlack.n && Blocked(c, s, w, until)
    ensures StoreFits(c, s, b)
  {
  }

  lemma EchoKeepsBusyFit(c: Config, s: State, s': State, f: ActorId, b: ActorId)
    requires Graceful(c) && Known(c, s) && Echoes(c, s, f) && Landed(c, s, s', f) && Busy(c, s', b)
    ensures StoreFits(c, s', b)
  {
    if s.actors[b].pc.victim != s.actors[f].pc.body.token {
      var until := s.actors[b].ticket.at + c.claimSlack.n;
      EchoIsBlocked(c, s, f, b, until);
      BlockedStays(c, s, s', f, s.actors[f].pc.body.token, until);
      BlockedFits(c, s', b, s.actors[f].pc.body.token, until);
    }
  }

  lemma EchoBesideIsBlocked(c: Config, s: State, f: ActorId, f': ActorId, until: Time)
    requires Graceful(c) && Known(c, s) && Echoes(c, s, f)
    requires Burying(c, s, f') && f' != f && until == s.actors[f'].pc.readAt + c.releaseSlack.n
    ensures Stores(s, s.actors[f'].pc.body.token) && NoneBusy(c, s)
    ensures Blocked(c, s, s.actors[f].pc.body.token, until)
  {
    BuryingIsNotSilent(c, s, f');
    assert BurialFits(c, s, f);
    forall b
      ensures !Busy(c, s, b)
    {
      NoneBusyBeside(c, s, b, f', f);
    }
    LeftIsBlocked(c, s, s.actors[f].pc.body.token, s.actors[f].pc.readAt, until);
  }

  lemma LandingLeavesNoneBusy(c: Config, s: State, s': State, f: ActorId)
    requires Burying(c, s, f) && Landed(c, s, s', f) && NoneBusy(c, s)
    ensures NoneBusy(c, s')
  {
    forall b
      ensures !Busy(c, s', b)
    {
      assert Busy(c, s', b) ==> Busy(c, s, b);
    }
  }

  lemma LandingIsUntouchable(c: Config, s: State, s': State, f: ActorId, until: Time)
    requires ClaimsExpire(c) && TicketsOK(c, s) && GenerationsOK(c, s) && Burying(c, s, f) && Landed(c, s, s', f)
    requires NoneBusy(c, s) && s.clock <= until && Blocked(c, s, s.actors[f].pc.body.token, until)
    ensures Untouchable(c, s', s.actors[f].pc.body.token, until)
  {
    LandingLeavesNoneBusy(c, s, s', f);
    BlockedStays(c, s, s', f, s.actors[f].pc.body.token, until);
  }

  lemma BesideLanding(c: Config, s: State, s': State, f: ActorId, f': ActorId)
    requires Burying(c, s, f) && Landed(c, s, s', f) && Burying(c, s', f')
    ensures f' != f && Burying(c, s, f') && s'.actors[f'] == s.actors[f']
    ensures c.releaseSlack.AtMost? ==> s.clock <= s.actors[f'].pc.readAt + c.releaseSlack.n
  {
  }

  lemma UntouchableFits(c: Config, s: State, f: ActorId, w: Token, until: Time)
    requires Burying(c, s, f) && c.claimSlack.AtMost? && c.releaseSlack.AtMost? && Stores(s, w) && s.lease.value.released
    requires Untouchable(c, s, w, until) && until == s.actors[f].pc.readAt + c.releaseSlack.n
    ensures BurialFits(c, s, f)
  {
  }

  /** The other tombstone in flight, if any, is for the grant that the echo replaces. */
  lemma EchoKeepsBurials(c: Config, s: State, s': State, f: ActorId, f': ActorId)
    requires Graceful(c) && Known(c, s) && Echoes(c, s, f) && Landed(c, s, s', f) && Burying(c, s', f')
    ensures BurialFits(c, s', f')
  {
    BesideLanding(c, s, s', f, f');
    var until := s.actors[f'].pc.readAt + c.releaseSlack.n;
    EchoBesideIsBlocked(c, s, f, f', until);
    LandingIsUntouchable(c, s, s', f, until);
    UntouchableFits(c, s', f', s.actors[f].pc.body.token, until);
  }

  lemma EchoKeepsOneAway(c: Config, s: State, s': State, f: ActorId)
    requires Graceful(c) && Known(c, s) && Echoes(c, s, f) && Landed(c, s, s', f)
    ensures OneAway(c, s')
  {
    forall p, q | Burying(c, s', p) && Burying(c, s', q)
      ensures p == q
    {
      EchoBesideIsBlocked(c, s, f, p, s.actors[p].pc.readAt + c.releaseSlack.n);
      EchoBesideIsBlocked(c, s, f, q, s.actors[q].pc.readAt + c.releaseSlack.n);
      BuryingIsNotSilent(c, s, p);
      BuryingIsNotSilent(c, s, q);
    }
  }

  // ---- an overwrite or a re-assertion ----

  /** The step in which claimant `a` writes. */
  ghost predicate Written(c: Config, s: State, s': State, a: ActorId) {
    && Busy(c, s, a) && (s.actors[a].pc.Overwrite? || s.actors[a].pc.Reassert?)
    && Frame(c, s, s', a) && s'.clock == s.clock && s'.claims == s.claims
    && a in s'.actors && s'.actors[a].pc.Verify? && s'.actors[a].pc.body == s.actors[a].pc.body
    && SameClaim(s.actors[a], s'.actors[a]) && s'.lease == Some(s.actors[a].pc.body)
  }

  lemma ClaimantWrites(c: Config, s: State, a: ActorId)
    requires Graceful(c) && Known(c, s) && a in s.actors && (s.actors[a].pc.Overwrite? || s.actors[a].pc.Reassert?)
    requires Apply(c, s, Go(a)).Some?
    ensures Written(c, s, Apply(c, s, Go(a)).value, a)
  {
    StepFrames(c, s, Go(a));
    StepShifts(c, s, Go(a));
  }

  /** What was stored is the claimed grant, or one whose owner is silent. */
  lemma WrittenOver(c: Config, s: State, a: ActorId, f: ActorId)
    requires Graceful(c) && Known(c, s) && Busy(c, s, a) && (s.actors[a].pc.Overwrite? || s.actors[a].pc.Reassert?)
    requires Burying(c, s, f) && Stores(s, s.actors[f].pc.body.token)
    ensures s.actors[f].pc.body.token == s.actors[a].pc.victim
  {
    BuryingIsNotSilent(c, s, f);
    assert StoreFits(c, s, a);
  }

  lemma WrittenUses(c: Config, s: State, s': State, a: ActorId, readAt: Time)
    requires Graceful(c) && Written(c, s, s', a) && TicketOK(c, s, a, s.actors[a]) && readAt <= s.clock
    ensures LeftBy(c, s', s.actors[a].pc.victim, s.actors[a].ticket.gen, readAt)
  {
  }

  lemma WrittenLeaves(c: Config, s: State, s': State, a: ActorId, f: ActorId)
    requires Graceful(c) && Known(c, s) && Written(c, s, s', a) && Burying(c, s, f)
    requires Stores(s, s.actors[f].pc.body.token)
    ensures Left(c, s', s.actors[f].pc.body.token, s.actors[f].pc.readAt)
  {
    WrittenOver(c, s, a, f);
    BuryingIsNotSilent(c, s, f);
    WrittenUses(c, s, s', a, s.actors[f].pc.readAt);
  }

  lemma WrittenKeepsLeft(c: Config, s: State, s': State, a: ActorId, u: Token, readAt: Time)
    requires Graceful(c) && TicketsOK(c, s) && Written(c, s, s', a) && Left(c, s, u, readAt)
    ensures Left(c, s', u, readAt)
  {
    var g: nat :| LeftBy(c, s, u, g, readAt);
    assert LeftBy(c, s', u, g, readAt);
  }

  lemma WrittenIsFresh(c: Config, s: State, a: ActorId, readAt: Time)
    requires Graceful(c) && TicketsOK(c, s) && Busy(c, s, a) && (s.actors[a].pc.Overwrite? || s.actors[a].pc.Reassert?)
    requires readAt <= s.clock
    ensures readAt + c.releaseSlack.n < s.actors[a].pc.body.expiresAt
  {
    assert TicketOK(c, s, a, s.actors[a]);
  }

  lemma WrittenStaysLeft(c: Config, s: State, s': State, a: ActorId, f: ActorId)
    requires Graceful(c) && Known(c, s) && Written(c, s, s', a) && Burying(c, s, f)
    ensures Left(c, s', s.actors[f].pc.body.token, s.actors[f].pc.readAt)
  {
    if Stores(s, s.actors[f].pc.body.token) {
      WrittenLeaves(c, s, s', a, f);
    } else {
      assert BurialFits(c, s, f);
      WrittenKeepsLeft(c, s, s', a, s.actors[f].pc.body.token, s.actors[f].pc.readAt);
    }
  }

  lemma WrittenBuryingBefore(c: Config, s: State, s': State, a: ActorId, f: ActorId)
    requires c.claimSlack.AtMost? && Written(c, s, s', a) && Burying(c, s', f)
    ensures Burying(c, s, f) && f != a && s'.actors[f] == s.actors[f]
  {
  }

  lemma LeftFits(c: Config, s: State, f: ActorId, u: Token, readAt: Time)
    requires Burying(c, s, f) && c.claimSlack.AtMost? && c.releaseSlack.AtMost? && s.lease.Some?
    requires u == s.actors[f].pc.body.token && readAt == s.actors[f].pc.readAt && Left(c, s, u, readAt)
    requires readAt + c.releaseSlack.n < s.lease.value.expiresAt
    ensures BurialFits(c, s, f)
  {
  }

  lemma WrittenKeepsBurials(c: Config, s: State, s': State, a: ActorId, f: ActorId)
    requires Graceful(c) && Known(c, s) && Written(c, s, s', a) && Burying(c, s', f)
    ensures BurialFits(c, s', f)
  {
    WrittenBuryingBefore(c, s, s', a, f);
    BuryingIsNotSilent(c, s, f);
    WrittenIsFresh(c, s, a, s.actors[f].pc.readAt);
    WrittenStaysLeft(c, s, s', a, f);
    LeftFits(c, s', f, s.actors[f].pc.body.token, s.actors[f].pc.readAt);
  }

  lemma WrittenKeepsOneAway(c: Config, s: State, s': State, a: ActorId)
    requires Graceful(c) && Known(c, s) && Written(c, s, s', a)
    ensures OneAway(c, s')
  {
    forall p, q | Burying(c, s', p) && Burying(c, s', q)
      ensures p == q
    {
      assert Burying(c, s, p) && Burying(c, s, q);
      BuryingIsNotSilent(c, s, p);
      BuryingIsNotSilent(c, s, q);
      if p != q && Stores(s, s.actors[p].pc.body.token) && !Stores(s, s.actors[q].pc.body.token) {
        NoneBusyBeside(c, s, a, p, q);
      }
      if p != q && Stores(s, s.actors[q].pc.body.token) && !Stores(s, s.actors[p].pc.body.token) {
        NoneBusyBeside(c, s, a, q, p);
      }
    }
  }

  lemma WrittenKeepsBusyFit(c: Config, s: State, s': State, a: ActorId, b: ActorId)
    requires Graceful(c) && Known(c, s) && Written(c, s, s', a) && Busy(c, s', b)
    ensures StoreFits(c, s', b)
  {
    assert b != a ==> Busy(c, s, b);
  }

  // ---- every step ----

  /** The part of the invariant that depends on what is stored. */
  ghost predicate StoreInv(c: Config, s: State)
    requires Graceful(c)
  {
    BusyFit(c, s) && BurialsFit(c, s) && OneAway(c, s)
  }

  lemma SameGrantKeeps(c: Config, s: State, act: Action)
    requires Graceful(c) && Known(c, s) && Apply(c, s, act).Some? && SameGrantStored(s, Apply(c, s, act).value)
    requires Apply(c, s, act).value.lease == s.lease || Apply(c, s, act).value.lease.value.released
    ensures StoreInv(c, Apply(c, s, act).value)
  {
    var s' := Apply(c, s, act).value;
    forall b | Busy(c, s', b)
      ensures StoreFits(c, s', b)
    {
      BusyStillFits(c, s, act, b);
    }
    forall f | Burying(c, s', f)
      ensures BurialFits(c, s', f)
    {
      BurialStillFits(c, s, act, s', f);
    }
    StillOneAway(c, s, act);
  }

  lemma RenewalKeeps(c: Config, s: State, act: Action)
    requires Graceful(c) && RenewFits(c) && Known(c, s) && SettleInv(c, s) && Apply(c, s, act).Some?
    requires act.Go? && act.a in s.actors && s.actors[act.a].pc.RenewPut? && Apply(c, s, act).value.lease != s.lease
    ensures StoreInv(c, Apply(c, s, act).value)
  {
    var s' := Apply(c, s, act).value;
    WhoWrites(c, s, act);
    RenewalMeetsNoBurial(c, s, act, act.a);
    forall f
      ensures !Burying(c, s', f)
    {
      RenewalMeetsNoBurial(c, s, act, f);
      if Burying(c, s', f) { BuryingBefore(c, s, act, f); }
    }
    forall b | Busy(c, s', b)
      ensures StoreFits(c, s', b)
    {
      BusyStillFits(c, s, act, b);
    }
  }

  lemma LandingKeeps(c: Config, s: State, s': State, f: ActorId)
    requires Graceful(c) && Known(c, s) && Echoes(c, s, f) && Landed(c, s, s', f)
    ensures StoreInv(c, s')
  {
    forall b | Busy(c, s', b)
      ensures StoreFits(c, s', b)
    {
      EchoKeepsBusyFit(c, s, s', f, b);
    }
    forall f' | Burying(c, s', f')
      ensures BurialFits(c, s', f')
    {
      EchoKeepsBurials(c, s, s', f, f');
    }
    EchoKeepsOneAway(c, s, s', f);
  }

  lemma WritingKeeps(c: Config, s: State, s': State, a: ActorId)
    requires Graceful(c) && Known(c, s) && Written(c, s, s', a)
    ensures StoreInv(c, s')
  {
    forall b | Busy(c, s', b)
      ensures StoreFits(c, s', b)
    {
      WrittenKeepsBusyFit(c, s, s', a, b);
    }
    forall f | Burying(c, s', f)
      ensures BurialFits(c, s', f)
    {
      WrittenKeepsBurials(c, s, s', a, f);
    }
    WrittenKeepsOneAway(c, s, s', a);
  }

  /** Before the first grant and right after it nobody reclaims or releases. */
  lemma EarlyKeeps(c: Config, s: State, act: Action)
    requires Graceful(c) && Inv(c, s) && Apply(c, s, act).Some? && s.lease.None?
    ensures StoreInv(c, Apply(c, s, act).value)
  {
    var s' := Apply(c, s, act).value;
    StepFrames(c, s, act);
    if !act.Tick? { StepShifts(c, s, act); }
    forall b
      ensures !Busy(c, s', b) && !Burying(c, s', b)
    {
      if b in s.actors { InvIsLocal(c, s, b); }
    }
  }

  lemma WriteKeeps(c: Config, s: State, act: Action)
    requires Graceful(c) && RenewFits(c) && Known(c, s) && SettleInv(c, s) && Apply(c, s, act).Some?
    requires s.lease.Some? && Apply(c, s, act).value.lease != s.lease
    ensures StoreInv(c, Apply(c, s, act).value)
  {
    var s' := Apply(c, s, act).value;
    WhoWrites(c, s, act);
    var a, pc := act.a, s.actors[act.a].pc;
    if pc.RenewPut? {
      RenewalKeeps(c, s, act);
    } else if pc.Overwrite? || pc.Reassert? {
      ClaimantWrites(c, s, a);
      WritingKeeps(c, s, s', a);
    } else if Stores(s, pc.body.token) {
      SameGrantKeeps(c, s, act);
    } else {
      EchoLands(c, s, a);
      LandingKeeps(c, s, s', a);
    }
  }

  lemma StepKeepsGrace(c: Config, s: State, act: Action)
    requires Graceful(c) && RenewFits(c) && Known(c, s) && SettleInv(c, s) && Apply(c, s, act).Some?
    ensures GraceInv(c, Apply(c, s, act).value)
  {
    ClaimsStayQuiet(c, s, act);
    TombStaysSilent(c, s, act);
    StaysOneBusy(c, s, act);
    if s.lease.None? {
      EarlyKeeps(c, s, act);
    } else if Apply(c, s, act).value.lease == s.lease {
      SameGrantKeeps(c, s, act);
    } else {
      WriteKeeps(c, s, act);
    }
  }

  /** In every reachable state the claimants take turns and no live grant is overwritten. */
  lemma {:induction false} RunsKeepGrace(c: Config, acts: seq<Action>)
    requires Graceful(c) && RenewFits(c) && Exec(c, acts).Some?
    ensures Known(c, Exec(c, acts).value) && SettleInv(c, Exec(c, acts).value)
  {
    RunsKeepQuietInv(c, acts);
    RunsKeepClaims(c, acts);
    if acts != [] {
      var before := acts[..|acts| - 1];
      RunsKeepGrace(c, before);
      var s := Exec(c, before).value;
      StepKeepsGrace(c, s, acts[|acts| - 1]);
      KnownIsHarmless(c, s);
      StepKeepsSettleInv(c, s, acts[|acts| - 1]);
    }
  }

  /** A holder finds its own token stored, however slow the claimants are. */
  lemma GraceHolderIsStored(c: Config, acts: seq<Action>, a: ActorId)
    requires Graceful(c) && RenewFits(c) && Exec(c, acts).Some? && Holding(Exec(c, acts).value, a)
    ensures var s := Exec(c, acts).value; Stores(s, s.actors[a].grant.value.token) && Mine(s, a, s.lease.value.token)
  {
    RunsKeepGrace(c, acts);
    var s := Exec(c, acts).value;
    InvIsLocal(c, s, a);
    assert Undisturbed(c, s, a);
  }

  /** The grace period excludes: claimants may stall as long as their claims are good for. */
  lemma GraceExcludes(c: Config)
    requires Graceful(c) && RenewFits(c)
    ensures Safe(c)
  {
    forall acts | Exec(c, acts).Some?
      ensures MutualExclusion(Exec(c, acts).value)
    {
      forall a, b | Holding(Exec(c, acts).value, a) && Holding(Exec(c, acts).value, b)
        ensures a == b
      {
        GraceHolderIsStored(c, acts, a);
        GraceHolderIsStored(c, acts, b);
      }
    }
  }
}
