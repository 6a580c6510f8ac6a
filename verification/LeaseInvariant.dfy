/** Structural invariant of the lease protocol, free of any timing assumption: who drew which token, what the
    program counters may carry, and that the lease object never disappears. */
module LeaseInvariant {
  import opened Common
  import opened LeaseModel

  predicate Mine(s: State, a: ActorId, t: Token) {
    t in s.minted && s.minted[t] == a
  }

  /** A body the actor has drawn but not yet stored. */
  predicate Unstored(s: State, a: ActorId, b: Body) {
    Mine(s, a, b.token) && b.token !in s.grants && !b.released
  }

  /** A body the actor has stored at some time. */
  predicate Stored(s: State, a: ActorId, b: Body) {
    Mine(s, a, b.token) && b.token in s.grants && !b.released
  }

  /** A body that was read from the store at some time. */
  predicate Observed(s: State, b: Body) {
    b.token in s.grants && (b.released ==> b.expiresAt <= s.clock)
  }

  predicate ReleaseOK(s: State, a: ActorId, x: Actor, b: Body) {
    Stored(s, a, b) && (x.grant.Some? ==> x.gaveUp && b.token == x.grant.value.token)
  }

  predicate PcOK(c: Config, s: State, a: ActorId, x: Actor) {
    match x.pc
    case MintAgain => x.grant.None?
    case Create(body, _) => x.grant.None? && Unstored(s, a, body)
    case ReadExisting => x.grant.None?
    case JudgeExisting(existing) => x.grant.None? && Observed(s, existing)
    case Recheck(existing) => x.grant.None? && Observed(s, existing)
    case JudgeRecheck(existing, recheck, readAt) =>
      x.grant.None? && Observed(s, existing) && Observed(s, recheck) && readAt <= s.clock
    case StampClaim(victim, _) => x.grant.None? && victim in s.grants
    case PutClaim(victim, _, at) => x.grant.None? && victim in s.grants && at <= s.clock
    case ReadClaim(victim, _) => x.grant.None? && victim in s.grants
    case JudgeClaim(victim, _, _, readAt) => x.grant.None? && victim in s.grants && readAt <= s.clock
    case Reread(victim, _) => x.grant.None? && victim in s.grants
    case MintSuccessor(victim, _, readAt) => x.grant.None? && victim in s.grants && readAt <= s.clock
    case Overwrite(victim, _, readAt, body) =>
      x.grant.None? && victim in s.grants && readAt <= s.clock && Unstored(s, a, body)
    case Verify(victim, body, _, putAt) =>
      x.grant.None? && victim in s.grants && putAt <= s.clock && Stored(s, a, body)
    case Reassert(victim, body, _, readAt) =>
      x.grant.None? && victim in s.grants && readAt <= s.clock && Stored(s, a, body)
    case DropClaim(victim, _) => x.grant.None? && victim in s.grants
    case Ready => x.grant.Some?
    case RenewCheck(_) => x.grant.Some?
    case RenewStamp(cur, checkedAt) => x.grant.Some? && checkedAt + 2 * c.settle < cur && checkedAt <= s.clock
    case RenewPut(cur, checkedAt, next) =>
      x.grant.Some? && checkedAt + 2 * c.settle < cur && checkedAt <= s.clock && cur < next
    case RenewVerify(_, _) => x.grant.Some?
    case ReleaseRead(body) => ReleaseOK(s, a, x, body)
    case ReleaseStamp(body, readAt) => ReleaseOK(s, a, x, body) && readAt <= s.clock
    case ReleasePut(body, readAt, stamp) => ReleaseOK(s, a, x, body) && readAt <= s.clock && stamp <= s.clock
    case Finished => x.grant.None?
  }

  predicate ActorOK(c: Config, s: State, a: ActorId, x: Actor) {
    && (x.grant.Some? ==> Stored(s, a, x.grant.value))
    && (x.gaveUp ==> x.grant.Some?)
    && PcOK(c, s, a, x)
  }

  /** Program counters an actor can have before any lease was ever stored. */
  predicate Early(x: Actor) {
    x.grant.None? && (x.pc.MintAgain? || x.pc.Create? || x.pc.ReadExisting? || x.pc.Finished?)
  }

  predicate Distinct(ts: seq<Token>) {
    forall i, j :: 0 <= i < j < |ts| ==> ts[i] != ts[j]
  }

  ghost predicate Inv(c: Config, s: State) {
    && (s.lease.None? <==> s.grants == [])
    && (s.lease.Some? ==> Observed(s, s.lease.value))
    && Distinct(s.grants)
    && (forall t :: t in s.grants ==> t in s.minted)
    && (forall t :: t in s.minted ==> s.minted[t] in s.actors)
    && (forall a :: a in s.actors ==> ActorOK(c, s, a, s.actors[a]))
    && (s.lease.None? ==> forall a :: a in s.actors ==> Early(s.actors[a]))
  }

  /** What one step of actor `a` may do to the shared history: it may add tokens of its own and nothing else. */
  ghost predicate Extends(s: State, s': State, a: ActorId) {
    && s.clock == s'.clock
    && (forall t :: t in s.minted ==> t in s'.minted && s'.minted[t] == s.minted[t])
    && (forall t :: t in s'.minted && t !in s.minted ==> s'.minted[t] == a)
    && |s.grants| <= |s'.grants|
    && s'.grants[..|s.grants|] == s.grants
    && (forall i :: |s.grants| <= i < |s'.grants| ==> Mine(s', a, s'.grants[i]))
  }

  lemma OthersOK(c: Config, s: State, s': State, a: ActorId, b: ActorId)
    requires Inv(c, s) && Extends(s, s', a) && b != a && b in s.actors
    ensures ActorOK(c, s', b, s.actors[b])
  {
    forall t | Mine(s, b, t)
      ensures Mine(s', b, t) && (t in s.grants <==> t in s'.grants)
    {
      if t in s.grants {
        var i :| 0 <= i < |s.grants| && s.grants[i] == t;
        assert s'.grants[i] == t;
      }
    }
    forall t | t in s.grants
      ensures t in s'.grants
    {
      var i :| 0 <= i < |s.grants| && s.grants[i] == t;
      assert s'.grants[i] == t;
    }
  }

  /** A step that replaces one actor and keeps the store well formed keeps the invariant. */
  lemma Replace(c: Config, s: State, s': State, a: ActorId, x: Actor)
    requires Inv(c, s) && Extends(s, s', a)
    requires s'.actors == s.actors[a := x] && ActorOK(c, s', a, x)
    requires s'.lease.None? <==> s'.grants == []
    requires s'.lease.Some? ==> Observed(s', s'.lease.value)
    requires Distinct(s'.grants)
    requires s'.lease.None? ==> Early(x)
    ensures Inv(c, s')
  {
    forall b | b in s'.actors
      ensures ActorOK(c, s', b, s'.actors[b])
    {
      if b != a { OthersOK(c, s, s', a, b); }
    }
    forall t | t in s'.grants
      ensures t in s'.minted
    {
      var i :| 0 <= i < |s'.grants| && s'.grants[i] == t;
      if i < |s.grants| { assert s.grants[i] in s.minted; }
    }
  }

  /** What one actor may rely on without looking at the others. */
  predicate LocalInv(c: Config, s: State, a: ActorId) {
    && a in s.actors
    && ActorOK(c, s, a, s.actors[a])
    && (s.lease.Some? ==> Observed(s, s.lease.value))
    && (s.lease.None? ==> Early(s.actors[a]) && s.grants == [])
  }

  /** A step that leaves tokens and history alone: one actor moves, possibly writing the lease or a claim. */
  predicate Moves(c: Config, s: State, s': State, a: ActorId) {
    && a in s'.actors
    && s' == s.(actors := s.actors[a := s'.actors[a]], lease := s'.lease, claims := s'.claims)
    && ActorOK(c, s, a, s'.actors[a])
    && (s'.lease.None? <==> s.lease.None?)
    && (s'.lease.Some? ==> Observed(s, s'.lease.value))
    && (s'.lease.None? ==> Early(s'.actors[a]))
  }

  lemma MoveKeepsInv(c: Config, s: State, s': State, a: ActorId)
    requires Inv(c, s) && Moves(c, s, s', a)
    ensures Inv(c, s')
  {
    Replace(c, s, s', a, s'.actors[a]);
  }

  /** Program counters from which a failed call does not simply end the acquire. */
  predicate HoldsBody(pc: PC) {
    || pc.Verify? || pc.Reassert? || pc.RenewPut? || pc.RenewVerify? || pc.ReleaseRead? || pc.ReleasePut?
  }

  lemma ReadMoves(c: Config, s: State, a: ActorId)
    requires LocalInv(c, s, a) && GoAcquire(c, s, a).Some?
    requires s.lease.Some? || !s.actors[a].pc.Create?
    requires s.actors[a].pc.Create? || s.actors[a].pc.ReadExisting? || s.actors[a].pc.Recheck?
    ensures Moves(c, s, GoAcquire(c, s, a).value, a)
  {
  }

  lemma JudgeMoves(c: Config, s: State, a: ActorId)
    requires LocalInv(c, s, a) && GoAcquire(c, s, a).Some?
    requires s.actors[a].pc.JudgeExisting? || s.actors[a].pc.JudgeRecheck?
    ensures Moves(c, s, GoAcquire(c, s, a).value, a)
  {
  }

  lemma StampMoves(c: Config, s: State, a: ActorId)
    requires LocalInv(c, s, a) && GoClaim(c, s, a).Some?
    requires s.actors[a].pc.StampClaim? || s.actors[a].pc.PutClaim?
    ensures Moves(c, s, GoClaim(c, s, a).value, a)
  {
  }

  lemma ClaimMoves(c: Config, s: State, a: ActorId)
    requires LocalInv(c, s, a) && GoClaim(c, s, a).Some?
    requires s.actors[a].pc.ReadClaim? || s.actors[a].pc.JudgeClaim? || s.actors[a].pc.DropClaim?
    ensures Moves(c, s, GoClaim(c, s, a).value, a)
  {
  }

  lemma RereadMoves(c: Config, s: State, a: ActorId)
    requires LocalInv(c, s, a) && GoReclaim(c, s, a).Some?
    requires s.actors[a].pc.Reread? || s.actors[a].pc.Reassert?
    ensures Moves(c, s, GoReclaim(c, s, a).value, a)
  {
  }

  lemma VerifyMoves(c: Config, s: State, a: ActorId)
    requires LocalInv(c, s, a) && GoReclaim(c, s, a).Some?
    requires s.actors[a].pc.Verify?
    ensures Moves(c, s, GoReclaim(c, s, a).value, a)
  {
  }

  lemma RenewMoves(c: Config, s: State, a: ActorId)
    requires LocalInv(c, s, a) && GoHolder(c, s, a).Some?
    requires s.actors[a].pc.RenewCheck? || s.actors[a].pc.RenewStamp? || s.actors[a].pc.RenewPut?
    ensures Moves(c, s, GoHolder(c, s, a).value, a)
  {
  }

  lemma RenewedMoves(c: Config, s: State, a: ActorId)
    requires LocalInv(c, s, a) && GoHolder(c, s, a).Some?
    requires s.actors[a].pc.RenewVerify?
    ensures Moves(c, s, GoHolder(c, s, a).value, a)
  {
  }

  lemma ReleaseMoves(c: Config, s: State, a: ActorId)
    requires LocalInv(c, s, a) && GoHolder(c, s, a).Some?
    requires s.actors[a].pc.ReleaseRead? || s.actors[a].pc.ReleaseStamp? || s.actors[a].pc.ReleasePut?
    ensures Moves(c, s, GoHolder(c, s, a).value, a)
  {
  }

  lemma AcquireFailureMoves(c: Config, s: State, a: ActorId)
    requires LocalInv(c, s, a) && Failed(s, a).Some?
    requires !HoldsBody(s.actors[a].pc)
    ensures Moves(c, s, Failed(s, a).value, a)
  {
  }

  lemma HolderFailureMoves(c: Config, s: State, a: ActorId)
    requires LocalInv(c, s, a) && Failed(s, a).Some?
    requires HoldsBody(s.actors[a].pc)
    ensures Moves(c, s, Failed(s, a).value, a)
  {
  }

  lemma CallMoves(c: Config, s: State, act: Action)
    requires (act.CallRenew? || act.CallRelease?) && LocalInv(c, s, act.a) && Apply(c, s, act).Some?
    ensures Moves(c, s, Apply(c, s, act).value, act.a)
  {
  }

  /** The steps that draw a token or store one for the first time. */
  predicate Grows(s: State, act: Action) {
    || act.Begin?
    || (act.Go? && act.a in s.actors && (
          || s.actors[act.a].pc.MintAgain?
          || s.actors[act.a].pc.MintSuccessor?
          || s.actors[act.a].pc.Overwrite?
          || (s.actors[act.a].pc.Create? && s.lease.None?)))
  }

  lemma GoMoves(c: Config, s: State, a: ActorId)
    requires !Grows(s, Go(a)) && LocalInv(c, s, a) && Advance(c, s, a).Some?
    ensures Moves(c, s, Advance(c, s, a).value, a)
  {
    var pc := s.actors[a].pc;
    if pc.Create? || pc.ReadExisting? || pc.Recheck? {
      ReadMoves(c, s, a);
    } else if pc.JudgeExisting? || pc.JudgeRecheck? {
      JudgeMoves(c, s, a);
    } else if pc.StampClaim? || pc.PutClaim? {
      StampMoves(c, s, a);
    } else if pc.ReadClaim? || pc.JudgeClaim? || pc.DropClaim? {
      ClaimMoves(c, s, a);
    } else if pc.Reread? || pc.Reassert? {
      RereadMoves(c, s, a);
    } else if pc.Verify? {
      VerifyMoves(c, s, a);
    } else if pc.RenewCheck? || pc.RenewStamp? || pc.RenewPut? {
      RenewMoves(c, s, a);
    } else if pc.RenewVerify? {
      RenewedMoves(c, s, a);
    } else if pc.ReleaseRead? || pc.ReleaseStamp? || pc.ReleasePut? {
      ReleaseMoves(c, s, a);
    }
  }

  lemma StepMoves(c: Config, s: State, act: Action)
    requires !act.Tick? && !Grows(s, act) && LocalInv(c, s, act.a) && Apply(c, s, act).Some?
    ensures Moves(c, s, Apply(c, s, act).value, act.a)
  {
    match act
    case CallRenew(_) => CallMoves(c, s, act);
    case CallRelease(_) => CallMoves(c, s, act);
    case Fail(a) => if HoldsBody(s.actors[a].pc) { HolderFailureMoves(c, s, a); } else { AcquireFailureMoves(c, s, a); }
    case Go(a) => GoMoves(c, s, a);
  }

  lemma InvIsLocal(c: Config, s: State, a: ActorId)
    requires Inv(c, s) && a in s.actors
    ensures LocalInv(c, s, a)
  {
  }

  lemma MintKeepsInv(c: Config, s: State, act: Action)
    requires Inv(c, s) && Grows(s, act) && Apply(c, s, act).Some?
    requires act.Go? ==> s.actors[act.a].pc.MintAgain? || s.actors[act.a].pc.MintSuccessor?
    ensures Inv(c, Apply(c, s, act).value)
  {
    var s' := Apply(c, s, act).value;
    if !act.Begin? { InvIsLocal(c, s, act.a); }
    Replace(c, s, s', act.a, s'.actors[act.a]);
  }

  lemma FirstStoreKeepsInv(c: Config, s: State, a: ActorId)
    requires Inv(c, s) && a in s.actors && Advance(c, s, a).Some?
    requires s.actors[a].pc.Overwrite? || (s.actors[a].pc.Create? && s.lease.None?)
    ensures Inv(c, Advance(c, s, a).value)
  {
    var s' := Advance(c, s, a).value;
    InvIsLocal(c, s, a);
    assert s'.grants[|s.grants|] == s.actors[a].pc.body.token;
    Replace(c, s, s', a, s'.actors[a]);
  }

  lemma TickKeepsInv(c: Config, s: State, d: nat)
    requires Inv(c, s)
    ensures Inv(c, s.(clock := s.clock + d))
  {
    var s' := s.(clock := s.clock + d);
    forall a | a in s.actors
      ensures ActorOK(c, s', a, s'.actors[a])
    {
      assert ActorOK(c, s, a, s.actors[a]);
    }
  }

  /** Every step keeps the structural invariant. */
  lemma StepKeepsInv(c: Config, s: State, act: Action)
    requires Inv(c, s) && Apply(c, s, act).Some?
    ensures Inv(c, Apply(c, s, act).value)
  {
    if act.Tick? {
      TickKeepsInv(c, s, act.d);
    } else if !Grows(s, act) {
      InvIsLocal(c, s, act.a);
      StepMoves(c, s, act);
      MoveKeepsInv(c, s, Apply(c, s, act).value, act.a);
    } else if act.Begin? || s.actors[act.a].pc.MintAgain? || s.actors[act.a].pc.MintSuccessor? {
      MintKeepsInv(c, s, act);
    } else {
      FirstStoreKeepsInv(c, s, act.a);
    }
  }

  lemma {:induction false} RunsKeepInv(c: Config, acts: seq<Action>)
    requires Exec(c, acts).Some?
    ensures Inv(c, Exec(c, acts).value)
  {
    if acts != [] {
      RunsKeepInv(c, acts[..|acts| - 1]);
      StepKeepsInv(c, Exec(c, acts[..|acts| - 1]).value, acts[|acts| - 1]);
    }
  }
}
