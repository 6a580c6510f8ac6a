/** Break claims and their generations.

    A claimant's ticket is the claim it won.  If a claim is good for less time than it takes another to be judged
    abandoned, two claimants of one grant never act at the same time, whatever is dropped or taken again. */
module LeaseClaims {
  import opened Common
  import opened LeaseModel
  import opened LeaseInvariant
  import opened LeaseQuiet

  /** Program counters from winning a claim to the end of its use. */
  predicate Claimant(pc: PC) {
    pc.Reread? || pc.MintSuccessor? || pc.Overwrite? || pc.Verify? || pc.Reassert? || pc.DropClaim?
  }

  function KeyOf(x: Actor): ClaimKey
    requires Claimant(x.pc)
  {
    ClaimKey(x.pc.victim, x.ticket.gen)
  }

  /** What the program counter of a claimant says about its ticket. */
  predicate TicketFits(c: Config, x: Actor) {
    match x.pc
    case Reread(_, gen) => gen == x.ticket.gen
    case MintSuccessor(_, gen, readAt) => gen == x.ticket.gen && x.ticket.at <= readAt
    case Overwrite(_, gen, readAt, body) =>
      gen == x.ticket.gen && x.ticket.at <= readAt && x.ticket.at + c.minTtl <= body.expiresAt
    case Verify(_, body, _, putAt) => x.ticket.at <= putAt && x.ticket.at + c.minTtl <= body.expiresAt
    case Reassert(_, body, _, readAt) =>
      x.ticket.at + c.settle <= readAt && x.ticket.at + c.minTtl <= body.expiresAt
    case DropClaim(_, gen) => gen == x.ticket.gen
    case _ => true
  }

  predicate TicketOK(c: Config, s: State, a: ActorId, x: Actor) {
    && c.minTtl <= x.ttl && TicketFits(c, x)
    && (Claimant(x.pc) ==>
          x.ticket.at <= s.clock && KeyOf(x) in s.claims && s.claims[KeyOf(x)] == Claim(a, x.ticket.at))
  }

  ghost predicate TicketsOK(c: Config, s: State) {
    forall a :: a in s.actors ==> TicketOK(c, s, a, s.actors[a])
  }

  /** How one step changes the claims: a won claim, a dropped one, or nothing. */
  predicate ClaimsChange(c: Config, s: State, s': State, a: ActorId) {
    || s'.claims == s.claims
    || (a in s.actors && a in s'.actors && s.actors[a].pc.PutClaim?
        && var pc := s.actors[a].pc;
           && ClaimKey(pc.victim, pc.gen) !in s.claims
           && s'.claims == s.claims[ClaimKey(pc.victim, pc.gen) := Claim(a, pc.at)]
           && s'.actors[a] == s.actors[a].(pc := Reread(pc.victim, pc.gen), ticket := Ticket(pc.gen, pc.at)))
    || (a in s.actors && a in s'.actors && s.actors[a].pc.DropClaim? && InTime(c, s, s.actors[a])
        && s'.claims == s.claims - {ClaimKey(s.actors[a].pc.victim, s.actors[a].pc.gen)}
        && s'.actors[a] == s.actors[a].(pc := Finished))
  }

  lemma ClaimLoopChanges(c: Config, s: State, a: ActorId)
    requires a in s.actors && GoClaim(c, s, a).Some?
    ensures ClaimsChange(c, s, GoClaim(c, s, a).value, a)
  {
  }

  lemma OthersKeepClaims(c: Config, s: State, act: Action)
    requires Apply(c, s, act).Some? && !(act.Go? && act.a in s.actors && GoClaim(c, s, act.a).Some?)
    ensures Apply(c, s, act).value.claims == s.claims
  {
  }

  lemma StepChangesClaims(c: Config, s: State, act: Action)
    requires Apply(c, s, act).Some? && !act.Tick?
    ensures ClaimsChange(c, s, Apply(c, s, act).value, act.a)
  {
    if act.Go? && act.a in s.actors && GoClaim(c, s, act.a).Some? {
      ClaimLoopChanges(c, s, act.a);
    } else {
      OthersKeepClaims(c, s, act);
    }
  }

  // ---- tickets ----

  /** The claim of one actor is not touched by a step of another. */
  lemma OtherTicketKept(c: Config, s: State, s': State, a: ActorId, b: ActorId)
    requires a != b && b in s.actors && TicketOK(c, s, b, s.actors[b]) && s.clock <= s'.clock
    requires a in s.actors ==> TicketOK(c, s, a, s.actors[a])
    requires ClaimsChange(c, s, s', a)
    ensures TicketOK(c, s', b, s.actors[b])
  {
  }

  lemma ClaimLoopTicket(c: Config, s: State, a: ActorId)
    requires LocalInv(c, s, a) && TicketOK(c, s, a, s.actors[a]) && GoClaim(c, s, a).Some?
    ensures TicketOK(c, GoClaim(c, s, a).value, a, GoClaim(c, s, a).value.actors[a])
  {
  }

  lemma RereadTicket(c: Config, s: State, a: ActorId)
    requires LocalInv(c, s, a) && TicketOK(c, s, a, s.actors[a]) && GoReclaim(c, s, a).Some?
    requires s.actors[a].pc.Reread? || s.actors[a].pc.MintSuccessor?
    ensures TicketOK(c, GoReclaim(c, s, a).value, a, GoReclaim(c, s, a).value.actors[a])
  {
  }

  lemma WriteTicket(c: Config, s: State, a: ActorId)
    requires LocalInv(c, s, a) && TicketOK(c, s, a, s.actors[a]) && GoReclaim(c, s, a).Some?
    requires s.actors[a].pc.Overwrite? || s.actors[a].pc.Reassert?
    ensures TicketOK(c, GoReclaim(c, s, a).value, a, GoReclaim(c, s, a).value.actors[a])
  {
  }

  lemma VerifyTicket(c: Config, s: State, a: ActorId)
    requires LocalInv(c, s, a) && TicketOK(c, s, a, s.actors[a]) && GoReclaim(c, s, a).Some?
    requires s.actors[a].pc.Verify?
    ensures TicketOK(c, GoReclaim(c, s, a).value, a, GoReclaim(c, s, a).value.actors[a])
  {
  }

  lemma AcquireTicket(c: Config, s: State, a: ActorId)
    requires a in s.actors && TicketOK(c, s, a, s.actors[a]) && GoAcquire(c, s, a).Some?
    ensures TicketOK(c, GoAcquire(c, s, a).value, a, GoAcquire(c, s, a).value.actors[a])
  {
  }

  lemma HolderTicket(c: Config, s: State, a: ActorId)
    requires a in s.actors && TicketOK(c, s, a, s.actors[a]) && GoHolder(c, s, a).Some?
    ensures TicketOK(c, GoHolder(c, s, a).value, a, GoHolder(c, s, a).value.actors[a])
  {
  }

  lemma GoTicket(c: Config, s: State, a: ActorId)
    requires LocalInv(c, s, a) && TicketOK(c, s, a, s.actors[a]) && Advance(c, s, a).Some?
    ensures TicketOK(c, Advance(c, s, a).value, a, Advance(c, s, a).value.actors[a])
  {
    var pc := s.actors[a].pc;
    if pc.Reread? || pc.MintSuccessor? {
      RereadTicket(c, s, a);
    } else if pc.Overwrite? || pc.Reassert? {
      WriteTicket(c, s, a);
    } else if pc.Verify? {
      VerifyTicket(c, s, a);
    } else if GoClaim(c, s, a).Some? {
      ClaimLoopTicket(c, s, a);
    } else if GoAcquire(c, s, a).Some? {
      AcquireTicket(c, s, a);
    } else {
      HolderTicket(c, s, a);
    }
  }

  lemma CallTicket(c: Config, s: State, act: Action)
    requires act.CallRenew? || act.CallRelease? || act.Begin?
    requires act.Begin? || (act.a in s.actors && TicketOK(c, s, act.a, s.actors[act.a]))
    requires Apply(c, s, act).Some?
    ensures TicketOK(c, Apply(c, s, act).value, act.a, Apply(c, s, act).value.actors[act.a])
  {
  }

  lemma FailureTicket(c: Config, s: State, a: ActorId)
    requires a in s.actors && TicketOK(c, s, a, s.actors[a]) && Failed(s, a).Some?
    ensures TicketOK(c, Failed(s, a).value, a, Failed(s, a).value.actors[a])
  {
  }

  lemma OwnTicket(c: Config, s: State, act: Action)
    requires !act.Tick? && Apply(c, s, act).Some?
    requires act.Begin? || (LocalInv(c, s, act.a) && TicketOK(c, s, act.a, s.actors[act.a]))
    ensures TicketOK(c, Apply(c, s, act).value, act.a, Apply(c, s, act).value.actors[act.a])
  {
    if act.Fail? {
      FailureTicket(c, s, act.a);
    } else if !act.Go? {
      CallTicket(c, s, act);
    } else {
      GoTicket(c, s, act.a);
    }
  }

  lemma StepKeepsTickets(c: Config, s: State, act: Action)
    requires Inv(c, s) && TicketsOK(c, s) && Apply(c, s, act).Some?
    ensures TicketsOK(c, Apply(c, s, act).value)
  {
    var s' := Apply(c, s, act).value;
    forall b | b in s'.actors
      ensures TicketOK(c, s', b, s'.actors[b])
    {
      if act.Tick? || b != act.a {
        OnlyOneMoves(c, s, act, b);
        ClockNeverRunsBack(c, s, act);
        if !act.Tick? {
          StepChangesClaims(c, s, act);
          OtherTicketKept(c, s, s', act.a, b);
        }
      } else {
        if !act.Begin? { InvIsLocal(c, s, b); }
        OwnTicket(c, s, act);
      }
    }
  }

  // ---- generations ----

  /** A claim is used up before anyone can judge it abandoned. */
  predicate ClaimsExpire(c: Config) {
    c.claimSlack.AtMost? && c.ageSlack.AtMost? && c.claimSlack.n + c.ageSlack.n < c.grace
  }

  /** Every generation of `v` below `gen` was claimed at least a grace period before `bound`. */
  predicate Passed(c: Config, s: State, v: Token, gen: nat, bound: Time) {
    forall g :: 0 <= g < gen ==> ClaimKey(v, g) in s.claims && s.claims[ClaimKey(v, g)].claimedAt + c.grace <= bound
  }

  ghost predicate Spaced(c: Config, s: State) {
    forall k :: k in s.claims ==> s.claims[k].claimedAt <= s.clock && Passed(c, s, k.victim, k.gen, s.claims[k].claimedAt)
  }

  /** Where an actor is in the generation loop, it has passed the generations below. */
  predicate LoopOK(c: Config, s: State, x: Actor)
    requires c.claimSlack.AtMost?
  {
    match x.pc
    case StampClaim(v, gen) => Passed(c, s, v, gen, s.clock)
    case PutClaim(v, gen, at) => Passed(c, s, v, gen, at) && at <= s.clock
    case ReadClaim(v, gen) => Passed(c, s, v, gen, s.clock)
    case JudgeClaim(v, gen, at, readAt) =>
      && Passed(c, s, v, gen, s.clock) && readAt <= s.clock
      && (at + c.claimSlack.n < readAt ==> ClaimKey(v, gen) in s.claims && s.claims[ClaimKey(v, gen)].claimedAt == at)
    case _ => true
  }

  ghost predicate GenerationsOK(c: Config, s: State)
    requires c.claimSlack.AtMost?
  {
    Spaced(c, s) && forall a :: a in s.actors ==> LoopOK(c, s, s.actors[a])
  }

  /** A claim past its time is there for good. */
  lemma ClaimLasts(c: Config, s: State, s': State, a: ActorId, k: ClaimKey)
    requires c.claimSlack.AtMost? && ClaimsChange(c, s, s', a)
    requires a in s.actors ==> TicketOK(c, s, a, s.actors[a])
    requires k in s.claims && s.claims[k].claimedAt + c.claimSlack.n < s.clock
    ensures k in s'.claims && s'.claims[k] == s.claims[k]
  {
  }

  lemma PassedLasts(c: Config, s: State, s': State, a: ActorId, v: Token, gen: nat, bound: Time, bound': Time)
    requires ClaimsExpire(c) && ClaimsChange(c, s, s', a)
    requires a in s.actors ==> TicketOK(c, s, a, s.actors[a])
    requires Passed(c, s, v, gen, bound) && bound <= s.clock && bound <= bound'
    ensures Passed(c, s', v, gen, bound')
  {
    forall g | 0 <= g < gen
      ensures ClaimKey(v, g) in s'.claims && s'.claims[ClaimKey(v, g)].claimedAt + c.grace <= bound'
    {
      assert ClaimKey(v, g) in s.claims && s.claims[ClaimKey(v, g)].claimedAt + c.grace <= bound;
      ClaimLasts(c, s, s', a, ClaimKey(v, g));
    }
  }

  /** An actor that stays put keeps its place in the loop. */
  lemma LoopKept(c: Config, s: State, s': State, a: ActorId, x: Actor)
    requires ClaimsExpire(c) && ClaimsChange(c, s, s', a) && s.clock <= s'.clock
    requires a in s.actors ==> TicketOK(c, s, a, s.actors[a])
    requires LoopOK(c, s, x)
    ensures LoopOK(c, s', x)
  {
    match x.pc
    case StampClaim(v, gen) => PassedLasts(c, s, s', a, v, gen, s.clock, s'.clock);
    case PutClaim(v, gen, at) => PassedLasts(c, s, s', a, v, gen, at, at);
    case ReadClaim(v, gen) => PassedLasts(c, s, s', a, v, gen, s.clock, s'.clock);
    case JudgeClaim(v, gen, at, readAt) =>
      PassedLasts(c, s, s', a, v, gen, s.clock, s'.clock);
      if at + c.claimSlack.n < readAt { ClaimLasts(c, s, s', a, ClaimKey(v, gen)); }
    case _ =>
  }

  /** The verdict on another's claim: whoever moves on leaves a claim behind that is used up. */
  lemma AgedIsPassed(c: Config, s: State, a: ActorId)
    requires ClaimsExpire(c) && a in s.actors && LoopOK(c, s, s.actors[a]) && s.actors[a].pc.JudgeClaim?
    requires GoClaim(c, s, a).Some?
    ensures LoopOK(c, s, GoClaim(c, s, a).value.actors[a])
  {
    var pc := s.actors[a].pc;
    if s.clock - pc.at >= c.grace {
      forall g | 0 <= g < pc.gen + 1
        ensures ClaimKey(pc.victim, g) in s.claims && s.claims[ClaimKey(pc.victim, g)].claimedAt + c.grace <= s.clock
      {
      }
    }
  }

  lemma LoopGo(c: Config, s: State, a: ActorId)
    requires ClaimsExpire(c) && a in s.actors && LoopOK(c, s, s.actors[a]) && GoClaim(c, s, a).Some?
    ensures LoopOK(c, s, GoClaim(c, s, a).value.actors[a])
  {
    if s.actors[a].pc.JudgeClaim? { AgedIsPassed(c, s, a); }
  }

  predicate InLoop(pc: PC) {
    pc.StampClaim? || pc.PutClaim? || pc.ReadClaim? || pc.JudgeClaim?
  }

  lemma AcquireEntersLoop(c: Config, s: State, a: ActorId)
    requires a in s.actors && GoAcquire(c, s, a).Some?
    ensures var pc := GoAcquire(c, s, a).value.actors[a].pc; InLoop(pc) ==> pc.StampClaim? && pc.gen == 0
  {
  }

  lemma ReclaimStaysOutOfLoop(c: Config, s: State, a: ActorId)
    requires a in s.actors && GoReclaim(c, s, a).Some?
    ensures !InLoop(GoReclaim(c, s, a).value.actors[a].pc)
  {
  }

  lemma HolderStaysOutOfLoop(c: Config, s: State, a: ActorId)
    requires a in s.actors && GoHolder(c, s, a).Some?
    ensures !InLoop(GoHolder(c, s, a).value.actors[a].pc)
  {
  }

  lemma CallsStayOutOfLoop(c: Config, s: State, act: Action)
    requires !act.Tick? && !act.Go? && Apply(c, s, act).Some?
    ensures !InLoop(Apply(c, s, act).value.actors[act.a].pc)
  {
  }

  lemma LoopEntered(c: Config, s: State, act: Action)
    requires c.claimSlack.AtMost? && !act.Tick? && Apply(c, s, act).Some?
    requires !(act.Go? && act.a in s.actors && GoClaim(c, s, act.a).Some?)
    ensures LoopOK(c, s, Apply(c, s, act).value.actors[act.a])
  {
    if !act.Go? {
      CallsStayOutOfLoop(c, s, act);
    } else if GoAcquire(c, s, act.a).Some? {
      AcquireEntersLoop(c, s, act.a);
    } else if GoReclaim(c, s, act.a).Some? {
      ReclaimStaysOutOfLoop(c, s, act.a);
    } else {
      HolderStaysOutOfLoop(c, s, act.a);
    }
  }

  lemma OwnLoop(c: Config, s: State, act: Action)
    requires ClaimsExpire(c) && !act.Tick? && Apply(c, s, act).Some?
    requires act.a in s.actors ==> LoopOK(c, s, s.actors[act.a])
    ensures LoopOK(c, s, Apply(c, s, act).value.actors[act.a])
  {
    if act.Go? && act.a in s.actors && GoClaim(c, s, act.a).Some? {
      LoopGo(c, s, act.a);
    } else {
      LoopEntered(c, s, act);
    }
  }

  lemma StaysSpaced(c: Config, s: State, s': State, a: ActorId)
    requires ClaimsExpire(c) && ClaimsChange(c, s, s', a) && s.clock <= s'.clock && Spaced(c, s)
    requires a in s.actors ==> TicketOK(c, s, a, s.actors[a]) && LoopOK(c, s, s.actors[a])
    ensures Spaced(c, s')
  {
    forall k | k in s'.claims
      ensures s'.claims[k].claimedAt <= s'.clock && Passed(c, s', k.victim, k.gen, s'.claims[k].claimedAt)
    {
      if k in s.claims {
        PassedLasts(c, s, s', a, k.victim, k.gen, s.claims[k].claimedAt, s.claims[k].claimedAt);
      } else {
        var pc := s.actors[a].pc;
        PassedLasts(c, s, s', a, pc.victim, pc.gen, pc.at, pc.at);
      }
    }
  }

  lemma StepKeepsGenerations(c: Config, s: State, act: Action)
    requires ClaimsExpire(c) && Inv(c, s) && TicketsOK(c, s) && GenerationsOK(c, s) && Apply(c, s, act).Some?
    ensures GenerationsOK(c, Apply(c, s, act).value)
  {
    var s' := Apply(c, s, act).value;
    var a := if act.Tick? then 0 else act.a;
    ClockNeverRunsBack(c, s, act);
    if !act.Tick? { StepChangesClaims(c, s, act); }
    assert ClaimsChange(c, s, s', a);
    StaysSpaced(c, s, s', a);
    forall b | b in s'.actors
      ensures LoopOK(c, s', s'.actors[b])
    {
      if act.Tick? || b != act.a {
        OnlyOneMoves(c, s, act, b);
      } else {
        OwnLoop(c, s, act);
      }
      LoopKept(c, s, s', a, s'.actors[b]);
    }
  }

  lemma {:induction false} RunsKeepClaims(c: Config, acts: seq<Action>)
    requires Exec(c, acts).Some?
    ensures TicketsOK(c, Exec(c, acts).value)
    ensures ClaimsExpire(c) ==> GenerationsOK(c, Exec(c, acts).value)
  {
    if acts != [] {
      var before := acts[..|acts| - 1];
      RunsKeepClaims(c, before);
      RunsKeepInv(c, before);
      StepKeepsTickets(c, Exec(c, before).value, acts[|acts| - 1]);
      if ClaimsExpire(c) { StepKeepsGenerations(c, Exec(c, before).value, acts[|acts| - 1]); }
    }
  }

  /** Two claimants of one grant: the earlier one's time was over before the later one's claim was stamped. */
  lemma ClaimantsTakeTurns(c: Config, s: State, a: ActorId, b: ActorId)
    requires ClaimsExpire(c) && TicketsOK(c, s) && GenerationsOK(c, s) && a in s.actors && b in s.actors && a != b
    requires Claimant(s.actors[a].pc) && Claimant(s.actors[b].pc) && s.actors[a].pc.victim == s.actors[b].pc.victim
    ensures !InTime(c, s, s.actors[a]) || !InTime(c, s, s.actors[b])
  {
    var x, y := s.actors[a], s.actors[b];
    assert TicketOK(c, s, a, x) && TicketOK(c, s, b, y);
    assert Passed(c, s, y.pc.victim, y.ticket.gen, y.ticket.at) && Passed(c, s, x.pc.victim, x.ticket.gen, x.ticket.at);
    assert x.ticket.gen != y.ticket.gen;
  }
}
