/** When a grant is over for good.

    A grant is quiet once no clock reading can find it unexpired again: what is stored under its token, what
    its owner believes, and every renewal in flight are bounded by the present.  If Renew and the reclaimer's
    staleness verdict together are never later than twice the settle window, quiet grants stay quiet, and every
    grant that a reclaimer judged stale is quiet. */
module LeaseQuiet {
  import opened Common
  import opened LeaseModel
  import opened LeaseInvariant

  /** The expiry margin of Renew covers the delays of the two sides that race across it. */
  predicate RenewFits(c: Config) {
    c.renewSlack.AtMost? && c.judgeSlack.AtMost? && c.renewSlack.n + c.judgeSlack.n <= 2 * c.settle
  }

  predicate RenewBelow(pc: PC, e: Time) {
    match pc
    case RenewCheck(cur) => cur <= e
    case RenewStamp(cur, _) => cur <= e
    case RenewPut(cur, _, _) => cur <= e
    case RenewVerify(next, _) => next <= e
    case _ => true
  }

  predicate BoundedActor(x: Actor, v: Token, e: Time) {
    && (x.grant.Some? && x.grant.value.token == v ==>
          (x.gaveUp || x.grant.value.expiresAt <= e) && RenewBelow(x.pc, e))
    && ((x.pc.Verify? || x.pc.Reassert?) && x.pc.body.token == v ==> x.pc.body.expiresAt <= e)
  }

  /** No expiry of grant `v` that is stored, believed or about to be confirmed lies after `e`. */
  predicate Bounded(s: State, v: Token, e: Time) {
    && (Stores(s, v) ==> s.lease.value.expiresAt <= e)
    && (v in s.minted && s.minted[v] in s.actors ==> BoundedActor(s.actors[s.minted[v]], v, e))
  }

  predicate Settled(s: State, v: Token, e: Time) {
    Bounded(s, v, Max(e, s.clock))
  }

  predicate Quiet(s: State, v: Token) {
    Bounded(s, v, s.clock)
  }

  /** Actor `a` is about to store a renewal of grant `v`. */
  predicate Renews(s: State, act: Action, v: Token) {
    && act.Go? && act.a in s.actors && s.actors[act.a].pc.RenewPut?
    && s.actors[act.a].grant.Some? && s.actors[act.a].grant.value.token == v
  }

  lemma MonotoneBound(s: State, v: Token, e: Time, e': Time)
    requires Bounded(s, v, e) && e <= e'
    ensures Bounded(s, v, e')
  {
  }

  /** Steps of other actors do not touch what is known of `v`. */
  lemma BoundedOther(c: Config, s: State, act: Action, v: Token, e: Time)
    requires !act.Tick? && !Grows(s, act) && LocalInv(c, s, act.a) && Apply(c, s, act).Some?
    requires v in s.minted && s.minted[v] != act.a && Bounded(s, v, e)
    ensures Bounded(Apply(c, s, act).value, v, e)
  {
    StepMoves(c, s, act);
    WritesOwnToken(c, s, act);
  }

  /** What a step stores carries the token of the actor that stores it. */
  lemma WritesOwnToken(c: Config, s: State, act: Action)
    requires !act.Tick? && !Grows(s, act) && LocalInv(c, s, act.a) && Apply(c, s, act).Some?
    ensures var s' := Apply(c, s, act).value;
            s'.lease == s.lease || (s'.lease.Some? && Mine(s, act.a, s'.lease.value.token))
  {
  }

  lemma BoundedAcquire(c: Config, s: State, a: ActorId, v: Token, e: Time)
    requires LocalInv(c, s, a) && Mine(s, a, v) && v in s.grants && Bounded(s, v, e) && s.clock <= e
    requires !Grows(s, Go(a)) && (GoAcquire(c, s, a).Some? || GoClaim(c, s, a).Some?)
    ensures Bounded(Advance(c, s, a).value, v, e)
  {
  }

  lemma BoundedReclaim(c: Config, s: State, a: ActorId, v: Token, e: Time)
    requires LocalInv(c, s, a) && Mine(s, a, v) && v in s.grants && Bounded(s, v, e) && s.clock <= e
    requires !Grows(s, Go(a)) && GoReclaim(c, s, a).Some?
    ensures Bounded(Advance(c, s, a).value, v, e)
  {
  }

  lemma BoundedHolder(c: Config, s: State, a: ActorId, v: Token, e: Time)
    requires LocalInv(c, s, a) && Mine(s, a, v) && v in s.grants && Bounded(s, v, e) && s.clock <= e
    requires !Renews(s, Go(a), v) && GoHolder(c, s, a).Some?
    ensures Bounded(GoHolder(c, s, a).value, v, e)
  {
  }

  lemma BoundedCall(c: Config, s: State, act: Action, v: Token, e: Time)
    requires act.Fail? || act.CallRenew? || act.CallRelease?
    requires LocalInv(c, s, act.a) && Mine(s, act.a, v) && v in s.grants && Bounded(s, v, e) && s.clock <= e
    requires Apply(c, s, act).Some?
    ensures Bounded(Apply(c, s, act).value, v, e)
  {
  }

  lemma BoundedGrowth(c: Config, s: State, act: Action, v: Token, e: Time)
    requires Inv(c, s) && Grows(s, act) && v in s.grants && Bounded(s, v, e) && Apply(c, s, act).Some?
    ensures Bounded(Apply(c, s, act).value, v, e)
  {
    if !act.Begin? { InvIsLocal(c, s, act.a); }
  }

  /** Bounds survive every step except a renewal of that very grant. */
  lemma BoundedStep(c: Config, s: State, act: Action, v: Token, e: Time)
    requires Inv(c, s) && v in s.grants && Bounded(s, v, e) && s.clock <= e
    requires Apply(c, s, act).Some? && !Renews(s, act, v)
    ensures Bounded(Apply(c, s, act).value, v, e)
  {
    if act.Tick? {
    } else if Grows(s, act) {
      BoundedGrowth(c, s, act, v, e);
    } else {
      InvIsLocal(c, s, act.a);
      if s.minted[v] != act.a {
        BoundedOther(c, s, act, v, e);
      } else if !act.Go? {
        BoundedCall(c, s, act, v, e);
      } else if GoAcquire(c, s, act.a).Some? || GoClaim(c, s, act.a).Some? {
        BoundedAcquire(c, s, act.a, v, e);
      } else if GoReclaim(c, s, act.a).Some? {
        BoundedReclaim(c, s, act.a, v, e);
      } else {
        BoundedHolder(c, s, act.a, v, e);
      }
    }
  }

  /** A renewal that can still land was checked against an expiry far enough ahead. */
  lemma RenewalIsEarly(c: Config, s: State, act: Action, v: Token, e: Time)
    requires RenewFits(c) && Inv(c, s) && Bounded(s, v, e) && Renews(s, act, v) && Apply(c, s, act).Some?
    ensures s.clock + c.judgeSlack.n < e
  {
    InvIsLocal(c, s, act.a);
  }

  lemma QuietStep(c: Config, s: State, act: Action, v: Token)
    requires RenewFits(c) && Inv(c, s) && v in s.grants && Quiet(s, v) && Apply(c, s, act).Some?
    ensures Quiet(Apply(c, s, act).value, v)
  {
    if Renews(s, act, v) { RenewalIsEarly(c, s, act, v, s.clock); }
    BoundedStep(c, s, act, v, s.clock);
    MonotoneBound(Apply(c, s, act).value, v, s.clock, Apply(c, s, act).value.clock);
  }

  predicate HasVictim(pc: PC) {
    || pc.StampClaim? || pc.PutClaim? || pc.ReadClaim? || pc.JudgeClaim? || pc.Reread?
    || pc.MintSuccessor? || pc.Overwrite? || pc.Verify? || pc.Reassert? || pc.DropClaim?
  }

  predicate RenewSeesGrant(s: State, x: Actor)
    requires x.pc.RenewCheck? || x.pc.RenewStamp? || x.pc.RenewPut?
  {
    && x.grant.Some?
    && (x.gaveUp || x.grant.value.expiresAt <= if x.pc.RenewCheck? then Max(x.pc.cur, s.clock) else x.pc.cur)
  }

  predicate RecheckHolds(c: Config, s: State, recheck: Body, readAt: Time) {
    || Settled(s, recheck.token, recheck.expiresAt)
    || (!recheck.released && c.judgeSlack.AtMost? && readAt + c.judgeSlack.n < recheck.expiresAt)
  }

  /** What an actor's own reads and verdicts still guarantee. */
  predicate Judged(c: Config, s: State, x: Actor) {
    && (HasVictim(x.pc) ==> Quiet(s, x.pc.victim))
    && (x.pc.JudgeRecheck? ==> RecheckHolds(c, s, x.pc.recheck, x.pc.readAt))
    && (x.pc.RenewCheck? || x.pc.RenewStamp? || x.pc.RenewPut? ==> RenewSeesGrant(s, x))
  }

  /** The stored body carries the latest expiry of its grant. */
  predicate StoreSettled(s: State) {
    s.lease.Some? ==> Settled(s, s.lease.value.token, s.lease.value.expiresAt)
  }

  ghost predicate QuietInv(c: Config, s: State) {
    StoreSettled(s) && forall a :: a in s.actors ==> Judged(c, s, s.actors[a])
  }

  lemma SettledStep(c: Config, s: State, act: Action, v: Token, e: Time)
    requires RenewFits(c) && Inv(c, s) && v in s.grants && Settled(s, v, e) && Apply(c, s, act).Some?
    ensures Settled(Apply(c, s, act).value, v, e) || s.clock + c.judgeSlack.n < e
  {
    if Renews(s, act, v) {
      RenewalIsEarly(c, s, act, v, Max(e, s.clock));
    } else {
      BoundedStep(c, s, act, v, Max(e, s.clock));
      MonotoneBound(Apply(c, s, act).value, v, Max(e, s.clock), Max(e, Apply(c, s, act).value.clock));
    }
  }

  lemma ClockNeverRunsBack(c: Config, s: State, act: Action)
    requires Apply(c, s, act).Some?
    ensures s.clock <= Apply(c, s, act).value.clock
  {
  }

  predicate Watches(s: State, x: Actor) {
    && (HasVictim(x.pc) ==> x.pc.victim in s.grants)
    && (x.pc.JudgeRecheck? ==> Observed(s, x.pc.recheck) && x.pc.readAt <= s.clock)
  }

  lemma ActorWatches(c: Config, s: State, a: ActorId, x: Actor)
    requires ActorOK(c, s, a, x)
    ensures Watches(s, x)
  {
  }

  /** The guarantees of an actor that stays put survive every step of the others. */
  lemma JudgedKept(c: Config, s: State, act: Action, x: Actor)
    requires RenewFits(c) && Inv(c, s) && Watches(s, x) && Judged(c, s, x) && Apply(c, s, act).Some?
    ensures Judged(c, Apply(c, s, act).value, x)
  {
    ClockNeverRunsBack(c, s, act);
    if HasVictim(x.pc) {
      QuietStep(c, s, act, x.pc.victim);
    } else if x.pc.JudgeRecheck? && Settled(s, x.pc.recheck.token, x.pc.recheck.expiresAt) {
      SettledStep(c, s, act, x.pc.recheck.token, x.pc.recheck.expiresAt);
    }
  }

  /** The verdict on the second read of the lease: whoever goes on to the claim looks at a quiet grant. */
  lemma StaleVerdictIsQuiet(c: Config, s: State, a: ActorId)
    requires RenewFits(c) && LocalInv(c, s, a) && Judged(c, s, s.actors[a])
    requires s.actors[a].pc.JudgeRecheck? && GoAcquire(c, s, a).Some?
    ensures Judged(c, s, GoAcquire(c, s, a).value.actors[a])
  {
  }

  lemma JudgedGo(c: Config, s: State, a: ActorId)
    requires RenewFits(c) && LocalInv(c, s, a) && StoreSettled(s) && Judged(c, s, s.actors[a])
    requires Advance(c, s, a).Some? && (GoAcquire(c, s, a).Some? || GoHolder(c, s, a).Some?)
    ensures Judged(c, s, Advance(c, s, a).value.actors[a])
  {
    if s.actors[a].pc.JudgeRecheck? { StaleVerdictIsQuiet(c, s, a); }
  }

  lemma JudgedReclaim(c: Config, s: State, a: ActorId)
    requires LocalInv(c, s, a) && Judged(c, s, s.actors[a])
    requires GoClaim(c, s, a).Some? || GoReclaim(c, s, a).Some?
    ensures Judged(c, s, Advance(c, s, a).value.actors[a])
  {
  }

  lemma JudgedFailure(c: Config, s: State, a: ActorId)
    requires LocalInv(c, s, a) && Judged(c, s, s.actors[a]) && Failed(s, a).Some?
    ensures Judged(c, s, Failed(s, a).value.actors[a])
  {
  }

  lemma JudgedCall(c: Config, s: State, act: Action)
    requires act.Fail? || act.CallRenew? || act.CallRelease?
    requires LocalInv(c, s, act.a) && StoreSettled(s)
    requires Judged(c, s, s.actors[act.a]) && Apply(c, s, act).Some?
    ensures Judged(c, s, Apply(c, s, act).value.actors[act.a])
  {
    if act.Fail? { JudgedFailure(c, s, act.a); }
  }

  lemma JudgedAdvance(c: Config, s: State, a: ActorId)
    requires RenewFits(c) && LocalInv(c, s, a) && StoreSettled(s) && Judged(c, s, s.actors[a])
    requires Advance(c, s, a).Some?
    ensures Judged(c, s, Advance(c, s, a).value.actors[a])
  {
    if GoClaim(c, s, a).Some? || GoReclaim(c, s, a).Some? {
      JudgedReclaim(c, s, a);
    } else {
      JudgedGo(c, s, a);
    }
  }

  /** The moving actor's new guarantees, as seen before the step. */
  lemma JudgedMove(c: Config, s: State, act: Action)
    requires RenewFits(c) && !act.Tick? && Apply(c, s, act).Some?
    requires act.Begin? || (LocalInv(c, s, act.a) && StoreSettled(s) && Judged(c, s, s.actors[act.a]))
    ensures Judged(c, s, Apply(c, s, act).value.actors[act.a])
  {
    if act.Go? {
      JudgedAdvance(c, s, act.a);
    } else if !act.Begin? {
      JudgedCall(c, s, act);
    }
  }

  lemma OwnWriteSettles(c: Config, s: State, a: ActorId)
    requires LocalInv(c, s, a) && Judged(c, s, s.actors[a]) && Advance(c, s, a).Some?
    requires Advance(c, s, a).value.lease != s.lease
    ensures StoreSettled(Advance(c, s, a).value)
  {
  }

  lemma StoreStaysSettled(c: Config, s: State, act: Action)
    requires RenewFits(c) && Inv(c, s) && QuietInv(c, s) && Apply(c, s, act).Some?
    ensures StoreSettled(Apply(c, s, act).value)
  {
    var s' := Apply(c, s, act).value;
    if s'.lease != s.lease {
      InvIsLocal(c, s, act.a);
      assert Judged(c, s, s.actors[act.a]);
      OwnWriteSettles(c, s, act.a);
    } else if s.lease.Some? {
      var v, e := s.lease.value.token, s.lease.value.expiresAt;
      if Renews(s, act, v) {
        InvIsLocal(c, s, act.a);
        assert Judged(c, s, s.actors[act.a]);
        RenewalStoresLater(c, s, act.a);
      } else {
        BoundedStep(c, s, act, v, Max(e, s.clock));
        ClockNeverRunsBack(c, s, act);
        MonotoneBound(s', v, Max(e, s.clock), Max(e, s'.clock));
      }
    }
  }

  lemma RenewalStoresLater(c: Config, s: State, a: ActorId)
    requires LocalInv(c, s, a) && Judged(c, s, s.actors[a])
    requires s.actors[a].pc.RenewPut? && Advance(c, s, a).Some?
    ensures StoreSettled(Advance(c, s, a).value)
  {
  }

  lemma GrowthMovesOne(c: Config, s: State, act: Action, b: ActorId)
    requires Grows(s, act) && Apply(c, s, act).Some? && b != act.a
    ensures b in Apply(c, s, act).value.actors <==> b in s.actors
    ensures b in s.actors ==> Apply(c, s, act).value.actors[b] == s.actors[b]
  {
  }

  lemma OnlyOneMoves(c: Config, s: State, act: Action, b: ActorId)
    requires Inv(c, s) && Apply(c, s, act).Some? && (act.Tick? || b != act.a)
    ensures b in Apply(c, s, act).value.actors <==> b in s.actors
    ensures b in s.actors ==> Apply(c, s, act).value.actors[b] == s.actors[b]
  {
    if act.Tick? {
    } else if Grows(s, act) {
      GrowthMovesOne(c, s, act, b);
    } else {
      InvIsLocal(c, s, act.a);
      StepMoves(c, s, act);
    }
  }

  lemma GrowthWatches(c: Config, s: State, act: Action)
    requires Grows(s, act) && Apply(c, s, act).Some? && (act.Begin? || LocalInv(c, s, act.a))
    ensures Watches(s, Apply(c, s, act).value.actors[act.a])
  {
  }

  lemma MovedWatches(c: Config, s: State, act: Action)
    requires !act.Tick? && Apply(c, s, act).Some? && (act.Begin? || LocalInv(c, s, act.a))
    ensures Watches(s, Apply(c, s, act).value.actors[act.a])
  {
    if Grows(s, act) {
      GrowthWatches(c, s, act);
    } else {
      StepMoves(c, s, act);
      ActorWatches(c, s, act.a, Apply(c, s, act).value.actors[act.a]);
    }
  }

  lemma StepKeepsQuietInv(c: Config, s: State, act: Action)
    requires RenewFits(c) && Inv(c, s) && QuietInv(c, s) && Apply(c, s, act).Some?
    ensures QuietInv(c, Apply(c, s, act).value)
  {
    var s' := Apply(c, s, act).value;
    StoreStaysSettled(c, s, act);
    forall b | b in s'.actors
      ensures Judged(c, s', s'.actors[b])
    {
      if act.Tick? || b != act.a {
        OnlyOneMoves(c, s, act, b);
        InvIsLocal(c, s, b);
        ActorWatches(c, s, b, s.actors[b]);
        JudgedKept(c, s, act, s.actors[b]);
      } else {
        if !act.Begin? { InvIsLocal(c, s, b); }
        JudgedMove(c, s, act);
        MovedWatches(c, s, act);
        JudgedKept(c, s, act, s'.actors[b]);
      }
    }
  }

  lemma {:induction false} RunsKeepQuietInv(c: Config, acts: seq<Action>)
    requires RenewFits(c) && Exec(c, acts).Some?
    ensures Inv(c, Exec(c, acts).value) && QuietInv(c, Exec(c, acts).value)
  {
    if acts != [] {
      var before := acts[..|acts| - 1];
      RunsKeepQuietInv(c, before);
      StepKeepsInv(c, Exec(c, before).value, acts[|acts| - 1]);
      StepKeepsQuietInv(c, Exec(c, before).value, acts[|acts| - 1]);
    }
  }
}
