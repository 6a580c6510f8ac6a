/** The settle window.

    Once an abandoned claim may be superseded, two claimants of one grant can be alive at the same time and the
    claim no longer excludes.  What excludes then is the settle window: if every overwrite lands within it,
    counted from the read that justified it, an acquirer that still finds its own token after the window has
    outlived every write that could land on top of it.  Tombstones always rely on the window; the overwrites of
    claimants rely on it unless something else keeps them off a live grant. */
module LeaseSettle {
  import opened Common
  import opened LeaseModel
  import opened LeaseInvariant
  import opened LeaseQuiet
  import opened LeaseClaims

  predicate Tight(slack: Slack, settle: Time) {
    slack.AtMost? && slack.n < settle
  }

  /** A claimant's overwrite follows its read, or its whole claim, by less than the settle window. */
  predicate PromptOverwrites(c: Config) {
    Tight(c.overwriteSlack, c.settle) || Tight(c.claimSlack, c.settle)
  }

  /** The same for a re-assertion, which comes a settle window after the claim at the earliest. */
  predicate PromptReasserts(c: Config) {
    Tight(c.reassertSlack, c.settle) || Tight(c.claimSlack, 2 * c.settle)
  }

  predicate PromptClaimants(c: Config) {
    PromptOverwrites(c) && PromptReasserts(c)
  }

  /** Tombstones, overwrites and re-assertions land inside the settle window. */
  predicate Prompt(c: Config) {
    Tight(c.releaseSlack, c.settle) && PromptClaimants(c)
  }

  /** Program counters between a read and the overwrite it justifies, as far as they rely on the settle window. */
  predicate Pending(c: Config, pc: PC) {
    || pc.ReleaseStamp? || pc.ReleasePut?
    || (PromptClaimants(c) && (pc.MintSuccessor? || pc.Overwrite? || pc.Reassert?))
  }

  /** Claimants that do not rely on the settle window write on grants that are over, or on their own. */
  ghost predicate Harmless(c: Config, s: State) {
    PromptClaimants(c) || forall f :: f in s.actors ==> WritesHarmlessly(c, s, f)
  }

  predicate WritesHarmlessly(c: Config, s: State, f: ActorId)
    requires f in s.actors
  {
    (s.actors[f].pc.Overwrite? || s.actors[f].pc.Reassert?) && InTime(c, s, s.actors[f]) && s.lease.Some? ==>
      Quiet(s, s.lease.value.token) || Mine(s, f, s.lease.value.token)
  }

  /** Every overwrite pending at an actor other than `h` rests on a read no later than `limit`. */
  ghost predicate Clear(c: Config, s: State, h: ActorId, limit: Time) {
    forall f :: f in s.actors && f != h && Pending(c, s.actors[f].pc) ==> s.actors[f].pc.readAt <= limit
  }

  /** A returned lease is over, or it is the stored one and nothing pending can still land on it. */
  ghost predicate Undisturbed(c: Config, s: State, h: ActorId)
    requires h in s.actors
  {
    s.actors[h].grant.Some? ==>
      var t := s.actors[h].grant.value.token;
      Quiet(s, t) || (Stores(s, t) && Clear(c, s, h, s.clock - c.settle))
  }

  /** While a reclaimer waits out the settle window, its body is over, or replaced, or all that is pending
      rests on reads from before its own write. */
  ghost predicate Settling(c: Config, s: State, h: ActorId)
    requires h in s.actors
  {
    s.actors[h].pc.Verify? ==>
      var t := s.actors[h].pc.body.token;
      Quiet(s, t) || !Stores(s, t) || Clear(c, s, h, s.actors[h].pc.putAt)
  }

  ghost predicate SettleInv(c: Config, s: State) {
    forall h :: h in s.actors ==> Undisturbed(c, s, h) && Settling(c, s, h)
  }

  // ---- a step of another actor ----

  lemma CallsAreNotPending(c: Config, s: State, act: Action)
    requires !act.Tick? && !act.Go? && Apply(c, s, act).Some?
    ensures !Pending(c, Apply(c, s, act).value.actors[act.a].pc)
  {
  }

  lemma AcquireIsNotPending(c: Config, s: State, a: ActorId)
    requires a in s.actors && (GoAcquire(c, s, a).Some? || GoClaim(c, s, a).Some?)
    ensures !Pending(c, Advance(c, s, a).value.actors[a].pc)
  {
  }

  /** A new pending overwrite rests on a read of its own victim or token, so never on a live foreign grant. */
  lemma NewlyPending(c: Config, s: State, act: Action, t: Token)
    requires !act.Tick? && Apply(c, s, act).Some? && Stores(s, t) && !Quiet(s, t) && !Mine(s, act.a, t)
    requires act.Begin? || (LocalInv(c, s, act.a) && Judged(c, s, s.actors[act.a]))
    ensures var pc' := Apply(c, s, act).value.actors[act.a].pc;
            Pending(c, pc') ==> act.a in s.actors && Pending(c, s.actors[act.a].pc) && pc'.readAt == s.actors[act.a].pc.readAt
  {
    if !act.Go? {
      CallsAreNotPending(c, s, act);
    } else if GoReclaim(c, s, act.a).Some? {
      NewlyPendingReclaim(c, s, act.a, t);
    } else if GoHolder(c, s, act.a).Some? {
      NewlyPendingHolder(c, s, act.a, t);
    } else {
      AcquireIsNotPending(c, s, act.a);
    }
  }

  lemma NewlyPendingReclaim(c: Config, s: State, a: ActorId, t: Token)
    requires LocalInv(c, s, a) && Judged(c, s, s.actors[a])
    requires GoReclaim(c, s, a).Some? && Stores(s, t) && !Quiet(s, t)
    ensures var pc' := GoReclaim(c, s, a).value.actors[a].pc;
            Pending(c, pc') ==> Pending(c, s.actors[a].pc) && pc'.readAt == s.actors[a].pc.readAt
  {
  }

  lemma NewlyPendingHolder(c: Config, s: State, a: ActorId, t: Token)
    requires LocalInv(c, s, a)
    requires GoHolder(c, s, a).Some? && Stores(s, t) && !Mine(s, a, t)
    ensures var pc' := GoHolder(c, s, a).value.actors[a].pc;
            Pending(c, pc') ==> Pending(c, s.actors[a].pc) && pc'.readAt == s.actors[a].pc.readAt
  {
  }

  lemma ClearStep(c: Config, s: State, act: Action, h: ActorId, t: Token, limit: Time)
    requires Inv(c, s) && QuietInv(c, s) && Apply(c, s, act).Some? && !act.Tick? && act.a != h
    requires Mine(s, h, t) && Stores(s, t) && !Quiet(s, t) && Clear(c, s, h, limit)
    ensures Clear(c, Apply(c, s, act).value, h, limit)
  {
    var s' := Apply(c, s, act).value;
    if !act.Begin? {
      InvIsLocal(c, s, act.a);
      assert Judged(c, s, s.actors[act.a]);
    }
    NewlyPending(c, s, act, t);
    forall f | f in s'.actors && f != h && Pending(c, s'.actors[f].pc)
      ensures s'.actors[f].pc.readAt <= limit
    {
      if f != act.a { OnlyOneMoves(c, s, act, f); }
    }
  }

  /** What a step stores: its own token, and only out of a pending overwrite, a renewal or an empty store. */
  lemma WriteNeedsPending(c: Config, s: State, act: Action)
    requires Tight(c.releaseSlack, c.settle) && Apply(c, s, act).Some? && s.lease.Some?
    requires act.Go? && act.a in s.actors ==> TicketOK(c, s, act.a, s.actors[act.a])
    requires Apply(c, s, act).value.lease != s.lease
    ensures act.Go? && act.a in s.actors
    ensures var pc := s.actors[act.a].pc;
            || pc.RenewPut?
            || (Pending(c, pc) && s.clock < pc.readAt + c.settle)
            || (!PromptClaimants(c) && (pc.Overwrite? || pc.Reassert?) && InTime(c, s, s.actors[act.a]))
  {
  }

  lemma LiveGrantIsNotOverwritten(c: Config, s: State, act: Action, h: ActorId, t: Token)
    requires Tight(c.releaseSlack, c.settle) && RenewFits(c) && Inv(c, s) && TicketsOK(c, s) && Harmless(c, s)
    requires SettleInv(c, s) && Apply(c, s, act).Some? && (act.Tick? || act.a != h)
    requires Mine(s, h, t) && Stores(s, t) && !Quiet(s, t) && Clear(c, s, h, s.clock - c.settle)
    ensures Apply(c, s, act).value.lease == s.lease
  {
    if Apply(c, s, act).value.lease != s.lease {
      WriteNeedsPending(c, s, act);
      InvIsLocal(c, s, act.a);
      assert Harmless(c, s) ==> PromptClaimants(c) || WritesHarmlessly(c, s, act.a);
      if s.actors[act.a].pc.RenewPut? {
        var u := s.actors[act.a].grant.value.token;
        assert Undisturbed(c, s, act.a);
        RenewalIsEarly(c, s, act, u, s.clock);
      }
      assert false;
    }
  }

  lemma UndisturbedByOthers(c: Config, s: State, act: Action, h: ActorId)
    requires Tight(c.releaseSlack, c.settle) && RenewFits(c) && Inv(c, s) && QuietInv(c, s) && TicketsOK(c, s)
    requires Harmless(c, s) && SettleInv(c, s) && Apply(c, s, act).Some?
    requires h in s.actors && (act.Tick? || act.a != h)
    ensures h in Apply(c, s, act).value.actors && Undisturbed(c, Apply(c, s, act).value, h)
  {
    var s' := Apply(c, s, act).value;
    OnlyOneMoves(c, s, act, h);
    if s.actors[h].grant.Some? {
      InvIsLocal(c, s, h);
      var t := s.actors[h].grant.value.token;
      assert Undisturbed(c, s, h);
      if Quiet(s, t) {
        QuietStep(c, s, act, t);
      } else {
        LiveGrantIsNotOverwritten(c, s, act, h, t);
        if !act.Tick? {
          ClearStep(c, s, act, h, t, s.clock - c.settle);
          SameClock(c, s, act);
        }
      }
    }
  }

  lemma SameClock(c: Config, s: State, act: Action)
    requires !act.Tick? && Apply(c, s, act).Some?
    ensures Apply(c, s, act).value.clock == s.clock
  {
  }

  lemma SettlingByOthers(c: Config, s: State, act: Action, h: ActorId)
    requires RenewFits(c) && Inv(c, s) && QuietInv(c, s) && SettleInv(c, s) && Apply(c, s, act).Some?
    requires h in s.actors && (act.Tick? || act.a != h)
    ensures h in Apply(c, s, act).value.actors && Settling(c, Apply(c, s, act).value, h)
  {
    var s' := Apply(c, s, act).value;
    OnlyOneMoves(c, s, act, h);
    if s.actors[h].pc.Verify? {
      InvIsLocal(c, s, h);
      var t := s.actors[h].pc.body.token;
      assert Settling(c, s, h);
      if Quiet(s, t) {
        QuietStep(c, s, act, t);
      } else if !act.Tick? {
        if Stores(s, t) {
          ClearStep(c, s, act, h, t, s.actors[h].pc.putAt);
        } else {
          StoresForeign(c, s, act, h, t);
        }
      }
    }
  }

  lemma StoresForeign(c: Config, s: State, act: Action, h: ActorId, t: Token)
    requires Inv(c, s) && !act.Tick? && act.a != h && Mine(s, h, t) && !Stores(s, t) && Apply(c, s, act).Some?
    ensures !Stores(Apply(c, s, act).value, t)
  {
    if !act.Begin? {
      InvIsLocal(c, s, act.a);
      if !Grows(s, act) { WritesOwnToken(c, s, act); }
    }
  }

  // ---- a step of the actor itself ----

  lemma ClearNow(c: Config, s: State, h: ActorId)
    requires Inv(c, s)
    ensures Clear(c, s, h, s.clock)
  {
    forall f | f in s.actors && f != h && Pending(c, s.actors[f].pc)
      ensures s.actors[f].pc.readAt <= s.clock
    {
      InvIsLocal(c, s, f);
    }
  }

  lemma OthersStayClear(c: Config, s: State, act: Action, limit: Time)
    requires Inv(c, s) && !act.Tick? && Apply(c, s, act).Some? && Clear(c, s, act.a, limit)
    ensures Clear(c, Apply(c, s, act).value, act.a, limit)
  {
    var s' := Apply(c, s, act).value;
    forall f | f in s'.actors && f != act.a && Pending(c, s'.actors[f].pc)
      ensures s'.actors[f].pc.readAt <= limit
    {
      OnlyOneMoves(c, s, act, f);
    }
  }

  /** An actor enters the settle window only with the write it has just made. */
  lemma EntersVerify(c: Config, s: State, act: Action)
    requires !act.Tick? && Apply(c, s, act).Some?
    requires act.a in Apply(c, s, act).value.actors && Apply(c, s, act).value.actors[act.a].pc.Verify?
    ensures Apply(c, s, act).value.actors[act.a].pc.putAt == s.clock
  {
  }

  lemma SettlingBySelf(c: Config, s: State, act: Action)
    requires Inv(c, s) && !act.Tick? && Apply(c, s, act).Some? && act.a in Apply(c, s, act).value.actors
    ensures Settling(c, Apply(c, s, act).value, act.a)
  {
    if Apply(c, s, act).value.actors[act.a].pc.Verify? {
      EntersVerify(c, s, act);
      ClearNow(c, s, act.a);
      OthersStayClear(c, s, act, s.clock);
    }
  }

  /** How an actor comes to, or stays with, a returned lease. */
  lemma OwnGrant(c: Config, s: State, act: Action)
    requires !act.Tick? && Apply(c, s, act).Some? && (act.Begin? || LocalInv(c, s, act.a))
    requires act.a in Apply(c, s, act).value.actors && Apply(c, s, act).value.actors[act.a].grant.Some?
    ensures !act.Begin?
    ensures var x, x', s' := s.actors[act.a], Apply(c, s, act).value.actors[act.a], Apply(c, s, act).value;
            var t := x'.grant.value.token;
            || (x.grant.Some? && x.grant.value.token == t && (Stores(s, t) ==> Stores(s', t)))
            || (x.pc.Create? && s.lease.None? && Stores(s', t))
            || (x.pc.Verify? && x.pc.body.token == t && x.pc.putAt + c.settle <= s.clock && Stores(s, t) && Stores(s', t))
  {
  }

  lemma UndisturbedBySelf(c: Config, s: State, act: Action)
    requires RenewFits(c) && Inv(c, s) && SettleInv(c, s)
    requires !act.Tick? && Apply(c, s, act).Some? && act.a in Apply(c, s, act).value.actors
    ensures Undisturbed(c, Apply(c, s, act).value, act.a)
  {
    var s' := Apply(c, s, act).value;
    if s'.actors[act.a].grant.Some? {
      if !act.Begin? { InvIsLocal(c, s, act.a); }
      OwnGrant(c, s, act);
      var x, t := s.actors[act.a], s'.actors[act.a].grant.value.token;
      SameClock(c, s, act);
      assert Undisturbed(c, s, act.a) && Settling(c, s, act.a);
      if x.grant.None? && x.pc.Create? {
        forall f | f in s.actors && f != act.a
          ensures !Pending(c, s.actors[f].pc)
        {
          InvIsLocal(c, s, f);
        }
        OthersStayClear(c, s, act, s.clock - c.settle);
      } else if Quiet(s, t) {
        QuietStep(c, s, act, t);
      } else {
        OthersStayClear(c, s, act, s.clock - c.settle);
      }
    }
  }

  lemma StepKeepsSettleInv(c: Config, s: State, act: Action)
    requires Tight(c.releaseSlack, c.settle) && RenewFits(c) && Inv(c, s) && QuietInv(c, s) && TicketsOK(c, s)
    requires Harmless(c, s) && SettleInv(c, s) && Apply(c, s, act).Some?
    ensures SettleInv(c, Apply(c, s, act).value)
  {
    var s' := Apply(c, s, act).value;
    forall h | h in s'.actors
      ensures Undisturbed(c, s', h) && Settling(c, s', h)
    {
      if act.Tick? || act.a != h {
        OnlyOneMoves(c, s, act, h);
        UndisturbedByOthers(c, s, act, h);
        SettlingByOthers(c, s, act, h);
      } else {
        UndisturbedBySelf(c, s, act);
        SettlingBySelf(c, s, act);
      }
    }
  }

  lemma {:induction false} RunsKeepSettleInv(c: Config, acts: seq<Action>)
    requires Prompt(c) && RenewFits(c) && Exec(c, acts).Some?
    ensures Inv(c, Exec(c, acts).value) && SettleInv(c, Exec(c, acts).value)
  {
    RunsKeepInv(c, acts);
    if acts != [] {
      var before := acts[..|acts| - 1];
      RunsKeepSettleInv(c, before);
      RunsKeepQuietInv(c, before);
      RunsKeepClaims(c, before);
      StepKeepsSettleInv(c, Exec(c, before).value, acts[|acts| - 1]);
    }
  }

  /** A holder always finds its own token stored: it is never overwritten while its lease is live. */
  lemma HolderIsStored(c: Config, acts: seq<Action>, a: ActorId)
    requires Prompt(c) && RenewFits(c) && Exec(c, acts).Some? && Holding(Exec(c, acts).value, a)
    ensures var s := Exec(c, acts).value; Stores(s, s.actors[a].grant.value.token) && Mine(s, a, s.lease.value.token)
  {
    RunsKeepSettleInv(c, acts);
    var s := Exec(c, acts).value;
    InvIsLocal(c, s, a);
    assert Undisturbed(c, s, a);
  }

  /** Prompt overwrites exclude, whatever the claims do and however often they are healed. */
  lemma PromptWritesExclude(c: Config)
    requires Prompt(c) && RenewFits(c)
    ensures Safe(c)
  {
    forall acts | Exec(c, acts).Some?
      ensures MutualExclusion(Exec(c, acts).value)
    {
      forall a, b | Holding(Exec(c, acts).value, a) && Holding(Exec(c, acts).value, b)
        ensures a == b
      {
        HolderIsStored(c, acts, a);
        HolderIsStored(c, acts, b);
      }
    }
  }
}
