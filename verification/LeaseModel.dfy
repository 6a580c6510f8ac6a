/** The per-deployment backup lease as a transition system.

    One lease object and a set of break claims live in a store whose only atomic operations are
    create-if-absent, overwrite, read and delete.  Every call of AcquireBackupLease is an actor with its own
    program counter; a held lease is then renewed and released by the same actor.  Between any two steps of
    one actor any other actor may move, the clock may advance, and an actor may stop for ever (a crash).
    An actor reads the clock and the store in separate steps, exactly as the code does.

    Time is an unbounded integer (nanoseconds) and never decreases. */
module LeaseModel {
  import opened Common

  type Time = int
  type ActorId = nat

  /** Owner + AcquiredAt: the fencing token that identifies one grant. */
  datatype Token = Token(owner: string, acquiredAt: Time)

  /** The persisted lease document. */
  datatype Body = Body(token: Token, expiresAt: Time, released: bool)

  /** breakClaimKey plus its generation suffix; distinct victims have distinct keys. */
  datatype ClaimKey = ClaimKey(victim: Token, gen: nat)

  /** The claim document; `breaker` names the actor that created it. */
  datatype Claim = Claim(breaker: ActorId, claimedAt: Time)

  /** How late a step may follow the read or clock check that justified it. */
  datatype Slack = Unbounded | AtMost(n: nat)

  predicate Within(slack: Slack, since: Time, now: Time) {
    slack.AtMost? ==> now <= since + slack.n
  }

  /** Timing of a deployment.  `settle` and `grace` are defaultLeaseSettle and wedgeGrace, `generations` is
      maxClaimGenerations; one generation means that abandoned claims are never healed. */
  datatype Config = Config(
    settle: Time,
    grace: Time,
    generations: nat,
    renewSlack: Slack,      // Renew: expiry check to overwrite
    judgeSlack: Slack,      // Acquire: second read of the lease to the staleness verdict on it
    releaseSlack: Slack,    // Release: ownership check to tombstone
    overwriteSlack: Slack,  // Acquire: read with the claim in hand to overwrite
    reassertSlack: Slack,   // Acquire: verify read that saw the echo to the next overwrite
    claimSlack: Slack,      // Acquire: stamp of a claim to its claimant's last overwrite, re-assertion or drop
    ageSlack: Slack,        // Acquire: read of another's claim to the verdict on its age
    minTtl: Time,           // no lease is asked for less time than this
    releaseOnce: bool)      // every holder calls Release at most once

  predicate ValidConfig(c: Config) {
    c.settle > 0 && c.grace > 0 && c.generations >= 1 && c.minTtl > 0
  }

  /** Where an actor is inside AcquireBackupLease, Renew or Release. */
  datatype PC =
    | MintAgain
    | Create(body: Body, first: bool)
    | ReadExisting
    | JudgeExisting(existing: Body)
    | Recheck(existing: Body)
    | JudgeRecheck(existing: Body, recheck: Body, readAt: Time)
    | StampClaim(victim: Token, gen: nat)
    | PutClaim(victim: Token, gen: nat, at: Time)
    | ReadClaim(victim: Token, gen: nat)
    | JudgeClaim(victim: Token, gen: nat, at: Time, readAt: Time)
    | Reread(victim: Token, gen: nat)
    | MintSuccessor(victim: Token, gen: nat, readAt: Time)
    | Overwrite(victim: Token, gen: nat, readAt: Time, body: Body)
    | Verify(victim: Token, body: Body, attempt: nat, putAt: Time)
    | Reassert(victim: Token, body: Body, attempt: nat, readAt: Time)
    | DropClaim(victim: Token, gen: nat)
    | Ready
    | RenewCheck(cur: Time)
    | RenewStamp(cur: Time, checkedAt: Time)
    | RenewPut(cur: Time, checkedAt: Time, next: Time)
    | RenewVerify(next: Time, putAt: Time)
    | ReleaseRead(body: Body)
    | ReleaseStamp(body: Body, readAt: Time)
    | ReleasePut(body: Body, readAt: Time, stamp: Time)
    | Finished

  /** The generation and the stamp of the break claim that an actor won. */
  datatype Ticket = Ticket(gen: nat, at: Time)

  /** `grant` is the lease body of a call that returned held; `gaveUp` records that Release was called. */
  datatype Actor = Actor(owner: string, ttl: Time, pc: PC, grant: Option<Body>, gaveUp: bool, ticket: Ticket)

  /** `minted` remembers which actor drew which token.  `grants` lists the tokens in the order in which they
      were first stored, and `succ` lists every overwrite of one grant by the next. */
  datatype State = State(
    clock: Time,
    lease: Option<Body>,
    claims: map<ClaimKey, Claim>,
    minted: map<Token, ActorId>,
    actors: map<ActorId, Actor>,
    grants: seq<Token>,
    succ: seq<(Token, Token)>)

  const RECLAIM_ECHO_RETRIES: nat := 3

  function Init(): State {
    State(0, None, map[], map[], map[], [], [])
  }

  datatype Action =
    | Tick(d: nat)
    | Begin(a: ActorId, owner: string, ttl: Time)
    | Go(a: ActorId)
    | Fail(a: ActorId)
    | CallRenew(a: ActorId)
    | CallRelease(a: ActorId)

  function SetPC(s: State, a: ActorId, pc: PC): State
    requires a in s.actors
  {
    s.(actors := s.actors[a := s.actors[a].(pc := pc)])
  }

  function SetTicket(s: State, a: ActorId, pc: PC, ticket: Ticket): State
    requires a in s.actors
  {
    s.(actors := s.actors[a := s.actors[a].(pc := pc, ticket := ticket)])
  }

  /** The claimant is still within the time that a claim is good for. */
  predicate InTime(c: Config, s: State, x: Actor) {
    Within(c.claimSlack, x.ticket.at, s.clock)
  }

  function SetGrant(s: State, a: ActorId, body: Body): State
    requires a in s.actors
  {
    s.(actors := s.actors[a := s.actors[a].(pc := Ready, grant := Some(body))])
  }

  /** freshBody: a new token stamped with the current clock.  Tokens are distinct. */
  function Mint(s: State, a: ActorId, owner: string): State {
    s.(minted := s.minted[Token(owner, s.clock) := a])
  }

  function FreshBody(s: State, owner: string, ttl: Time): Body {
    Body(Token(owner, s.clock), s.clock + ttl, false)
  }

  function Tombstone(body: Body, stamp: Time): Body {
    Body(body.token, stamp, true)
  }

  predicate Live(b: Body, now: Time) {
    !b.released && now < b.expiresAt
  }

  predicate Stores(s: State, t: Token) {
    s.lease.Some? && s.lease.value.token == t
  }

  /** Where Release leaves its caller: a holder may call again, a failed acquire is over. */
  function AfterRelease(x: Actor): PC {
    if x.grant.Some? then Ready else Finished
  }

  /** The next step of AcquireBackupLease up to the break claim. */
  function GoAcquire(c: Config, s: State, a: ActorId): Option<State>
    requires a in s.actors
  {
    var x := s.actors[a];
    match x.pc
    case MintAgain =>
      if Token(x.owner, s.clock) in s.minted then None
      else Some(SetPC(Mint(s, a, x.owner), a, Create(FreshBody(s, x.owner, x.ttl), false)))
    case Create(body, first) =>
      if s.lease.None? then
        Some(SetGrant(s.(lease := Some(body), grants := s.grants + [body.token]), a, body))
      else Some(SetPC(s, a, if first then ReadExisting else Finished))
    case ReadExisting =>
      Some(SetPC(s, a, if s.lease.None? then MintAgain else JudgeExisting(s.lease.value)))
    case JudgeExisting(existing) =>
      Some(SetPC(s, a, if Live(existing, s.clock) then Finished else Recheck(existing)))
    case Recheck(existing) =>
      Some(SetPC(s, a,
                 if s.lease.None? then MintAgain else JudgeRecheck(existing, s.lease.value, s.clock)))
    case JudgeRecheck(existing, recheck, readAt) =>
      if !Within(c.judgeSlack, readAt, s.clock) then None
      else if recheck.token != existing.token || Live(recheck, s.clock) then Some(SetPC(s, a, Finished))
      else Some(SetPC(s, a, StampClaim(recheck.token, 0)))
    case _ => None
  }

  /** The generation loop of claimBreakKey. */
  function GoClaim(c: Config, s: State, a: ActorId): Option<State>
    requires a in s.actors
  {
    var x := s.actors[a];
    match x.pc
    case StampClaim(victim, gen) =>
      Some(SetPC(s, a, if gen < c.generations then PutClaim(victim, gen, s.clock) else Finished))
    case PutClaim(victim, gen, at) =>
      if ClaimKey(victim, gen) in s.claims then Some(SetPC(s, a, ReadClaim(victim, gen)))
      else Some(SetTicket(s.(claims := s.claims[ClaimKey(victim, gen) := Claim(a, at)]), a, Reread(victim, gen), Ticket(gen, at)))
    case ReadClaim(victim, gen) =>
      Some(SetPC(s, a,
                 if ClaimKey(victim, gen) in s.claims
                 then JudgeClaim(victim, gen, s.claims[ClaimKey(victim, gen)].claimedAt, s.clock)
                 else Finished))
    case JudgeClaim(victim, gen, at, readAt) =>
      if !Within(c.ageSlack, readAt, s.clock) then None
      else Some(SetPC(s, a, if s.clock - at < c.grace then Finished else StampClaim(victim, gen + 1)))
    case DropClaim(victim, gen) =>
      if !InTime(c, s, x) then None
      else Some(SetPC(s.(claims := s.claims - {ClaimKey(victim, gen)}), a, Finished))
    case _ => None
  }

  /** From the read with the claim in hand to the verdict of the settle-verify loop. */
  function GoReclaim(c: Config, s: State, a: ActorId): Option<State>
    requires a in s.actors
  {
    var x := s.actors[a];
    match x.pc
    case Reread(victim, gen) =>
      Some(SetPC(s, a, if Stores(s, victim) then MintSuccessor(victim, gen, s.clock) else Finished))
    case MintSuccessor(victim, gen, readAt) =>
      if Token(x.owner, s.clock) in s.minted then None
      else Some(SetPC(Mint(s, a, x.owner), a, Overwrite(victim, gen, readAt, FreshBody(s, x.owner, x.ttl))))
    case Overwrite(victim, gen, readAt, body) =>
      if !Within(c.overwriteSlack, readAt, s.clock) || !InTime(c, s, x) then None
      else Some(SetPC(s.(lease := Some(body), grants := s.grants + [body.token],
                         succ := s.succ + [(victim, body.token)]),
                      a, Verify(victim, body, 0, s.clock)))
    case Verify(victim, body, attempt, putAt) =>
      if s.clock < putAt + c.settle then None
      else if s.lease.None? then Some(SetPC(s, a, ReleaseRead(body)))
      else if Stores(s, body.token) then Some(SetGrant(s, a, body))
      else if attempt < RECLAIM_ECHO_RETRIES && Stores(s, victim)
      then Some(SetPC(s, a, Reassert(victim, body, attempt, s.clock)))
      else Some(SetPC(s, a, Finished))
    case Reassert(victim, body, attempt, readAt) =>
      if !Within(c.reassertSlack, readAt, s.clock) || !InTime(c, s, x) then None
      else Some(SetPC(s.(lease := Some(body)), a, Verify(victim, body, attempt + 1, s.clock)))
    case _ => None
  }

  /** Renew after its first read, and Release (also the hand-back of an unconfirmed reclaim). */
  function GoHolder(c: Config, s: State, a: ActorId): Option<State>
    requires a in s.actors
  {
    var x := s.actors[a];
    match x.pc
    case RenewCheck(cur) =>
      Some(SetPC(s, a, if s.clock + 2 * c.settle < cur then RenewStamp(cur, s.clock) else Ready))
    case RenewStamp(cur, checkedAt) =>
      var next := s.clock + x.ttl;
      Some(SetPC(s, a, if next <= cur then Ready else RenewPut(cur, checkedAt, next)))
    case RenewPut(cur, checkedAt, next) =>
      if x.grant.None? || !Within(c.renewSlack, checkedAt, s.clock) then None
      else Some(SetPC(s.(lease := Some(x.grant.value.(expiresAt := next))), a, RenewVerify(next, s.clock)))
    case RenewVerify(next, putAt) =>
      if x.grant.None? || s.clock < putAt + c.settle then None
      else if Stores(s, x.grant.value.token) then Some(SetGrant(s, a, x.grant.value.(expiresAt := next)))
      else Some(SetPC(s, a, Ready))
    case ReleaseRead(body) =>
      Some(SetPC(s, a, if Stores(s, body.token) then ReleaseStamp(body, s.clock) else AfterRelease(x)))
    case ReleaseStamp(body, readAt) =>
      Some(SetPC(s, a, ReleasePut(body, readAt, s.clock)))
    case ReleasePut(body, readAt, stamp) =>
      if !Within(c.releaseSlack, readAt, s.clock) then None
      else Some(SetPC(s.(lease := Some(Tombstone(body, stamp))), a, AfterRelease(x)))
    case _ => None
  }

  /** The error return of the pending store call; a failed call has no effect on the store. */
  function Failed(s: State, a: ActorId): Option<State>
    requires a in s.actors
  {
    var x := s.actors[a];
    match x.pc
    case Create(_, _) => Some(SetPC(s, a, Finished))
    case ReadExisting => Some(SetPC(s, a, Finished))
    case Recheck(_) => Some(SetPC(s, a, Finished))
    case PutClaim(_, _, _) => Some(SetPC(s, a, Finished))
    case ReadClaim(_, _) => Some(SetPC(s, a, Finished))
    case Reread(victim, gen) => Some(SetPC(s, a, DropClaim(victim, gen)))
    case Overwrite(victim, gen, _, _) => Some(SetPC(s, a, DropClaim(victim, gen)))
    case DropClaim(_, _) => Some(SetPC(s, a, Finished))
    case Verify(_, body, _, _) => Some(SetPC(s, a, ReleaseRead(body)))
    case Reassert(_, body, _, _) => Some(SetPC(s, a, ReleaseRead(body)))
    case RenewPut(_, _, _) => Some(SetPC(s, a, Ready))
    case RenewVerify(_, _) => Some(SetPC(s, a, Ready))
    case ReleaseRead(_) => Some(SetPC(s, a, AfterRelease(x)))
    case ReleasePut(_, _, _) => Some(SetPC(s, a, AfterRelease(x)))
    case _ => None
  }

  function Advance(c: Config, s: State, a: ActorId): Option<State>
    requires a in s.actors
  {
    match s.actors[a].pc
    case MintAgain => GoAcquire(c, s, a)
    case Create(_, _) => GoAcquire(c, s, a)
    case ReadExisting => GoAcquire(c, s, a)
    case JudgeExisting(_) => GoAcquire(c, s, a)
    case Recheck(_) => GoAcquire(c, s, a)
    case JudgeRecheck(_, _, _) => GoAcquire(c, s, a)
    case StampClaim(_, _) => GoClaim(c, s, a)
    case PutClaim(_, _, _) => GoClaim(c, s, a)
    case ReadClaim(_, _) => GoClaim(c, s, a)
    case JudgeClaim(_, _, _, _) => GoClaim(c, s, a)
    case DropClaim(_, _) => GoClaim(c, s, a)
    case Reread(_, _) => GoReclaim(c, s, a)
    case MintSuccessor(_, _, _) => GoReclaim(c, s, a)
    case Overwrite(_, _, _, _) => GoReclaim(c, s, a)
    case Verify(_, _, _, _) => GoReclaim(c, s, a)
    case Reassert(_, _, _, _) => GoReclaim(c, s, a)
    case _ => GoHolder(c, s, a)
  }

  /** One atomic step; None when the action is not possible, or not timely, in this state. */
  function Apply(c: Config, s: State, act: Action): Option<State> {
    match act
    case Tick(d) => Some(s.(clock := s.clock + d))
    case Begin(a, owner, ttl) =>
      if a in s.actors || Token(owner, s.clock) in s.minted || ttl < c.minTtl then None
      else
        var x := Actor(owner, ttl, Create(FreshBody(s, owner, ttl), true), None, false, Ticket(0, 0));
        Some(Mint(s, a, owner).(actors := s.actors[a := x]))
    case Go(a) => if a in s.actors then Advance(c, s, a) else None
    case Fail(a) => if a in s.actors then Failed(s, a) else None
    case CallRenew(a) =>
      if a !in s.actors || s.actors[a].pc != Ready || s.actors[a].grant.None? then None
      else Some(SetPC(s, a,
                      if Stores(s, s.actors[a].grant.value.token) then RenewCheck(s.lease.value.expiresAt) else Ready))
    case CallRelease(a) =>
      if a !in s.actors || s.actors[a].pc != Ready || s.actors[a].grant.None? || (c.releaseOnce && s.actors[a].gaveUp)
      then None
      else Some(s.(actors := s.actors[a := s.actors[a].(pc := ReleaseRead(s.actors[a].grant.value), gaveUp := true)]))
  }

  /** The state after a whole run, or None when some action of it was not possible. */
  function Exec(c: Config, acts: seq<Action>): Option<State> {
    if acts == [] then Some(Init())
    else
      var before := Exec(c, acts[..|acts| - 1]);
      if before.None? then None else Apply(c, before.value, acts[|acts| - 1])
  }

  /** A returned lease that its owner has not given back and whose expiry still lies ahead. */
  predicate Holding(s: State, a: ActorId) {
    a in s.actors && s.actors[a].grant.Some? && !s.actors[a].gaveUp && s.clock < s.actors[a].grant.value.expiresAt
  }

  ghost predicate MutualExclusion(s: State) {
    forall a, b :: Holding(s, a) && Holding(s, b) ==> a == b
  }

  /** Mutual exclusion in every state of every run with this timing. */
  ghost predicate Safe(c: Config) {
    forall acts :: Exec(c, acts).Some? ==> MutualExclusion(Exec(c, acts).value)
  }
}
