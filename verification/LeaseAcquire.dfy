/** The lease operations of one process that meets no interference, and recovery from crashes.

    The store may hold whatever crashed actors left behind: any lease body and any set of claims.  The clock is
    read in separate steps and may advance between any two of them. */
module LeaseAcquire {
  import opened Common
  import opened LeaseModel

  datatype Outcome = Held | InProgress | Lost | Kept

  /** The lease namespace of one deployment in a store with atomic create-if-absent. */
  class Repo {
    var clock: Time
    var lease: Option<Body>
    var claims: map<ClaimKey, Claim>
    /** One-shot writes of the previous holder that are still in flight, all of one body. */
    var stragglers: nat
    const straggler: Body

    constructor (clock: Time, lease: Option<Body>, claims: map<ClaimKey, Claim>, stragglers: nat, straggler: Body)
      ensures this.clock == clock && this.lease == lease && this.claims == claims
      ensures this.stragglers == stragglers && this.straggler == straggler
    {
      this.clock, this.lease, this.claims, this.stragglers, this.straggler := clock, lease, claims, stragglers, straggler;
    }

    /** One reading of the clock, at some later time. */
    method Now() returns (t: Time)
      modifies this`clock
      ensures t == clock && old(clock) <= clock
    {
      var d: nat :| 0 <= d;
      clock := clock + d;
      t := clock;
    }

    /** The settle window: at least `d` passes, and some of the late writes in flight may land. */
    method Settle(d: nat)
      modifies this`clock, this`lease, this`stragglers
      ensures old(clock) + d <= clock
      ensures stragglers <= old(stragglers)
      ensures lease == if stragglers < old(stragglers) then Some(straggler) else old(lease)
    {
      var extra: nat :| 0 <= extra;
      clock := clock + d + extra;
      var landed: nat :| landed <= stragglers;
      if landed > 0 { lease := Some(straggler); }
      stragglers := stragglers - landed;
    }

    method CreateLease(b: Body) returns (ok: bool)
      modifies this`lease
      ensures ok <==> old(lease).None?
      ensures lease == if ok then Some(b) else old(lease)
    {
      ok := lease.None?;
      if ok { lease := Some(b); }
    }

    method CreateClaim(k: ClaimKey, cl: Claim) returns (ok: bool)
      modifies this`claims
      ensures ok <==> k !in old(claims)
      ensures claims == if ok then old(claims)[k := cl] else old(claims)
    {
      ok := k !in claims;
      if ok { claims := claims[k := cl]; }
    }
  }

  /** Every claim of generation below `gen` on `v` exists and is older than the grace period. */
  predicate AgedBelow(claims: map<ClaimKey, Claim>, v: Token, gen: nat, grace: Time, now: Time) {
    forall g :: 0 <= g < gen ==> ClaimKey(v, g) in claims && grace <= now - claims[ClaimKey(v, g)].claimedAt
  }

  /** Generation `gen` is the one a lone reclaimer of `v` gets. */
  predicate Obtains(claims: map<ClaimKey, Claim>, v: Token, gen: nat, grace: Time, now: Time) {
    ClaimKey(v, gen) !in claims && AgedBelow(claims, v, gen, grace, now)
  }

  class Lease {
    const repo: Repo
    const self: ActorId
    const ttl: Time
    const settle: nat
    var body: Option<Body>

    constructor (repo: Repo, self: ActorId, ttl: Time, settle: nat)
      ensures this.repo == repo && this.self == self && this.ttl == ttl && this.settle == settle && body.None?
    {
      this.repo, this.self, this.ttl, this.settle, this.body := repo, self, ttl, settle, None;
    }

    method FreshBody(owner: string) returns (b: Body)
      modifies repo`clock
      ensures old(repo.clock) <= repo.clock && b == Body(Token(owner, repo.clock), repo.clock + ttl, false)
    {
      var t := repo.Now();
      b := Body(Token(owner, t), t + ttl, false);
    }

    /** claimBreakKey: the first free generation, unless a younger claim comes before it. */
    method ClaimBreak(victim: Token, generations: nat, grace: Time) returns (got: Option<nat>)
      modifies repo`clock, repo`claims
      ensures old(repo.clock) <= repo.clock
      ensures got.Some? ==>
                && got.value < generations
                && Obtains(old(repo.claims), victim, got.value, grace, repo.clock)
                && ClaimKey(victim, got.value) in repo.claims
                && repo.claims == old(repo.claims)[ClaimKey(victim, got.value) := repo.claims[ClaimKey(victim, got.value)]]
                && repo.claims[ClaimKey(victim, got.value)].breaker == self
                && old(repo.clock) <= repo.claims[ClaimKey(victim, got.value)].claimedAt <= repo.clock
      ensures got.None? ==>
                && repo.claims == old(repo.claims)
                && forall g :: 0 <= g < generations ==> !Obtains(old(repo.claims), victim, g, grace, old(repo.clock))
    {
      var gen := 0;
      while gen < generations
        invariant 0 <= gen <= generations
        invariant old(repo.clock) <= repo.clock
        invariant repo.claims == old(repo.claims)
        invariant AgedBelow(repo.claims, victim, gen, grace, repo.clock)
      {
        var k := ClaimKey(victim, gen);
        var at := repo.Now();
        var ok := repo.CreateClaim(k, Claim(self, at));
        if ok {
          return Some(gen);
        }
        var t := repo.Now();
        if t - repo.claims[k].claimedAt < grace {
          forall g | 0 <= g < generations
            ensures !Obtains(old(repo.claims), victim, g, grace, old(repo.clock))
          {
            if g > gen { assert !AgedBelow(old(repo.claims), victim, g, grace, old(repo.clock)); }
          }
          return None;
        }
        gen := gen + 1;
      }
      got := None;
    }

    /** The settle-verify loop of a reclaim: late writes of the broken grant are overwritten again, up to
        RECLAIM_ECHO_RETRIES times, so that many of them cannot keep the reclaimer from holding. */
    method ConfirmReclaim(mine: Body, victim: Token) returns (r: Outcome)
      requires repo.lease == Some(mine) && mine.token != victim
      requires repo.stragglers > 0 ==> repo.straggler.token == victim
      modifies repo`clock, repo`lease, repo`stragglers
      ensures old(repo.clock) <= repo.clock
      ensures r == Held || r == InProgress
      ensures repo.lease == Some(if r == Held then mine else repo.straggler)
      ensures repo.stragglers <= old(repo.stragglers)
      ensures old(repo.stragglers) <= RECLAIM_ECHO_RETRIES ==> r == Held
      // a settle window has passed, and one more for each late write that was overwritten
      ensures r == Held ==> old(repo.clock) + settle <= repo.clock
      ensures r == InProgress ==> old(repo.clock) + (RECLAIM_ECHO_RETRIES + 1) * settle <= repo.clock
    {
      var attempt := 0;
      while true
        invariant repo.lease == Some(mine) && old(repo.clock) + attempt * settle <= repo.clock
        invariant attempt <= RECLAIM_ECHO_RETRIES
        invariant repo.stragglers + attempt <= old(repo.stragglers)
        decreases RECLAIM_ECHO_RETRIES - attempt
      {
        repo.Settle(settle);
        var cur := repo.lease.value;
        if cur.token == mine.token {
          return Held;
        }
        if !(attempt < RECLAIM_ECHO_RETRIES && cur.token == victim) {
          return InProgress;
        }
        repo.lease := Some(mine);
        attempt := attempt + 1;
      }
    }

    /** AcquireBackupLease from the create attempt to the held lease. */
    method Acquire(owner: string, generations: nat, grace: Time) returns (r: Outcome)
      requires repo.lease.Some? ==> repo.lease.value.token.acquiredAt < repo.clock  // tokens are distinct
      requires repo.stragglers > 0 ==> repo.lease.Some? && repo.straggler.token == repo.lease.value.token
      modifies this`body, repo`clock, repo`lease, repo`claims, repo`stragglers
      ensures old(repo.clock) <= repo.clock
      ensures r == Held || r == InProgress
      // held: its own fresh body is stored, and at most one claim was added
      ensures r == Held ==>
                && body.Some? && repo.lease == body && !body.value.released && body.value.token.owner == owner
                && body.value.expiresAt == body.value.token.acquiredAt + ttl
                && old(repo.clock) <= body.value.token.acquiredAt <= repo.clock
                && (old(repo.lease).Some? ==> body.value.token.acquiredAt + settle <= repo.clock)
      // not held: nothing was changed, unless more late writes landed than are overwritten again
      ensures r != Held && old(repo.stragglers) <= RECLAIM_ECHO_RETRIES ==>
                repo.lease == old(repo.lease) && repo.claims == old(repo.claims) && body == old(body)
      // when it holds
      ensures old(repo.lease).None? ==> r == Held && repo.claims == old(repo.claims)
      ensures r == Held && old(repo.lease).Some? ==>
                var b := old(repo.lease).value;
                && (b.released || b.expiresAt <= repo.clock)
                && exists g :: 0 <= g < generations && Obtains(old(repo.claims), b.token, g, grace, repo.clock)
                               && repo.claims.Keys == old(repo.claims).Keys + {ClaimKey(b.token, g)}
      ensures r != Held && old(repo.stragglers) <= RECLAIM_ECHO_RETRIES
              && old(repo.lease).Some?
              && (old(repo.lease).value.released || old(repo.lease).value.expiresAt <= old(repo.clock)) ==>
                forall g :: 0 <= g < generations ==>
                  !Obtains(old(repo.claims), old(repo.lease).value.token, g, grace, old(repo.clock))
    {
      var b := FreshBody(owner);
      var ok := repo.CreateLease(b);
      if ok {
        body := Some(b);
        return Held;
      }
      var existing := repo.lease.value;
      var t := repo.Now();
      if Live(existing, t) {
        return InProgress;
      }
      var recheck := repo.lease.value;
      t := repo.Now();
      if recheck.token != existing.token || Live(recheck, t) {
        return InProgress;
      }
      ghost var asked := repo.clock;
      var gen := ClaimBreak(recheck.token, generations, grace);
      if gen.None? {
        forall g: nat | Obtains(repo.claims, recheck.token, g, grace, old(repo.clock))
          ensures Obtains(repo.claims, recheck.token, g, grace, asked)
        {
        }
        return InProgress;
      }
      assert repo.claims.Keys == old(repo.claims).Keys + {ClaimKey(recheck.token, gen.value)};
      var cur := repo.lease;
      if cur.None? || cur.value.token != recheck.token {
        return InProgress;
      }
      b := FreshBody(owner);
      repo.lease := Some(b);
      body := Some(b);
      r := ConfirmReclaim(b, recheck.token);
      assert Obtains(old(repo.claims), recheck.token, gen.value, grace, repo.clock);
    }

    /** Renew: a lease is extended, never shortened, and not touched inside the expiry margin. */
    method Renew() returns (r: Outcome)
      requires body.Some? && !body.value.released
      modifies this`body, repo`clock, repo`lease, repo`stragglers
      ensures old(repo.clock) <= repo.clock
      ensures r == Lost || r == Kept || r == Held
      ensures body.Some? && body.value.token == old(body).value.token && !body.value.released
      ensures r == Held ==>
                && old(repo.lease).Some? && old(repo.lease).value.token == body.value.token
                && old(repo.clock) + 2 * settle < old(repo.lease).value.expiresAt < body.value.expiresAt
                && repo.lease.Some? && repo.lease.value.token == body.value.token
                && (repo.stragglers == old(repo.stragglers) ==> repo.lease == body)
                // the new expiry is one ttl after a moment of the call, and a settle window has passed since
                && old(repo.clock) <= body.value.expiresAt - ttl && body.value.expiresAt - ttl + settle <= repo.clock
      ensures r != Held ==>
                && body == old(body)
                && (repo.stragglers == old(repo.stragglers) ==> repo.lease == old(repo.lease))
      ensures r == Kept ==>
                && old(repo.lease).Some? && old(repo.lease).value.token == body.value.token
                && repo.lease == old(repo.lease) && old(repo.clock) + ttl <= old(repo.lease).value.expiresAt
      // lost only to another grant, to the expiry margin, or to a late write of another grant
      ensures r == Lost ==>
                || old(repo.lease).None? || old(repo.lease).value.token != body.value.token
                || old(repo.lease).value.expiresAt <= repo.clock + 2 * settle
                || (repo.stragglers < old(repo.stragglers) && repo.straggler.token != body.value.token)
      // a healthy holder's lease is extended
      ensures old(repo.lease).Some? && old(repo.lease).value.token == body.value.token
              && repo.clock + 2 * settle < old(repo.lease).value.expiresAt < old(repo.clock) + ttl
              && repo.stragglers == old(repo.stragglers) ==>
                r == Held
      ensures old(repo.lease).None? || old(repo.lease).value.token != old(body).value.token
              || old(repo.lease).value.expiresAt <= old(repo.clock) + 2 * settle ==>
                r == Lost && repo.lease == old(repo.lease)
    {
      var mine := body.value;
      var cur := repo.lease;
      if cur.None? || cur.value.token != mine.token {
        return Lost;
      }
      var t := repo.Now();
      if !(t < cur.value.expiresAt) {
        return Lost;
      }
      t := repo.Now();
      if !(t + 2 * settle < cur.value.expiresAt) {
        return Lost;
      }
      t := repo.Now();
      var next := mine.(expiresAt := t + ttl);
      if !(cur.value.expiresAt < next.expiresAt) {
        return Kept;
      }
      repo.lease := Some(next);
      repo.Settle(settle);
      if repo.lease.value.token != mine.token {
        return Lost;
      }
      body := Some(next);
      r := Held;
    }

    /** Release: a tombstone of the same grant, and only over the own grant. */
    method Release()
      requires body.Some?
      modifies repo`clock, repo`lease
      ensures old(repo.clock) <= repo.clock
      ensures if old(repo.lease).Some? && old(repo.lease).value.token == body.value.token
              then repo.lease.Some? && repo.lease.value.token == body.value.token && repo.lease.value.released
                   && old(repo.clock) <= repo.lease.value.expiresAt <= repo.clock
              else repo.lease == old(repo.lease)
    {
      var cur := repo.lease;
      if cur.None? || cur.value.token != body.value.token {
        return;
      }
      var t := repo.Now();
      repo.lease := Some(Tombstone(body.value, t));
    }
  }

  // ---- recovery ----

  /** A claim set in which every claim of `v` has outlived the grace period. */
  predicate AllAged(claims: map<ClaimKey, Claim>, v: Token, grace: Time, now: Time) {
    forall k :: k in claims && k.victim == v ==> grace <= now - claims[k].claimedAt
  }

  predicate FreeBelow(claims: map<ClaimKey, Claim>, v: Token, generations: nat) {
    exists g :: 0 <= g < generations && ClaimKey(v, g) !in claims
  }

  lemma LeastFree(claims: map<ClaimKey, Claim>, v: Token, g: nat, grace: Time, now: Time) returns (least: nat)
    requires ClaimKey(v, g) !in claims && AllAged(claims, v, grace, now)
    ensures least <= g && Obtains(claims, v, least, grace, now)
    decreases g
  {
    if h :| 0 <= h < g && ClaimKey(v, h) !in claims {
      least := LeastFree(claims, v, h, grace, now);
    } else {
      least := g;
    }
  }

  /** Whatever crashed actors left behind: once the stored expiry and every claim have aged, a lone acquirer
      holds exactly when there is no lease or some claim generation is still free. */
  method Recover(repo: Repo, self: ActorId, owner: string, ttl: Time, settle: nat, generations: nat, grace: Time)
    returns (held: bool, lease: Lease)
    requires repo.lease.Some? ==>
               && (repo.lease.value.released || repo.lease.value.expiresAt <= repo.clock)
               && repo.lease.value.token.acquiredAt < repo.clock
               && AllAged(repo.claims, repo.lease.value.token, grace, repo.clock)
    requires repo.stragglers > 0 ==> repo.lease.Some? && repo.straggler.token == repo.lease.value.token
    requires repo.stragglers <= RECLAIM_ECHO_RETRIES
    modifies repo
    ensures held <==> old(repo.lease).None? || FreeBelow(old(repo.claims), old(repo.lease).value.token, generations)
    ensures held ==> repo.lease.Some? && repo.lease == lease.body && repo.lease.value.token.owner == owner
    ensures !held ==> repo.lease == old(repo.lease) && repo.claims == old(repo.claims)
  {
    lease := new Lease(repo, self, ttl, settle);
    var r := lease.Acquire(owner, generations, grace);
    held := r == Held;
    if old(repo.lease).Some? {
      var v := old(repo.lease).value.token;
      if FreeBelow(old(repo.claims), v, generations) {
        var g :| 0 <= g < generations && ClaimKey(v, g) !in old(repo.claims);
        ghost var least := LeastFree(old(repo.claims), v, g, grace, old(repo.clock));
      }
    }
  }

  // ---- wedge detection ----

  datatype Wedge = Wedge(lease: Body, claimKey: ClaimKey, claim: Claim)

  /** InspectLeaseSuccession: a stale lease whose generation-0 claim has outlived the grace period. */
  function Inspect(lease: Option<Body>, claims: map<ClaimKey, Claim>, grace: Time, now: Time): (w: Option<Wedge>)
  {
    if lease.None? || Live(lease.value, now) then None
    else
      var k := ClaimKey(lease.value.token, 0);
      if k !in claims || now - claims[k].claimedAt < grace then None
      else Some(Wedge(lease.value, k, claims[k]))
  }

  /** What the verdict means for the next acquirer: a live lease is never wedged; with no wedge reported, a stale lease
      can be taken exactly when its first claim is free; a reported wedge can only be passed through a later
      generation. */
  lemma VerdictPredictsAcquire(lease: Body, claims: map<ClaimKey, Claim>, generations: nat, grace: Time, now: Time)
    requires generations >= 1
    ensures Inspect(Some(lease), claims, grace, now).None? && (lease.released || lease.expiresAt <= now) ==>
              ((exists g :: 0 <= g < generations && Obtains(claims, lease.token, g, grace, now))
               <==> ClaimKey(lease.token, 0) !in claims)
    ensures Inspect(Some(lease), claims, grace, now).Some? ==>
              && (lease.released || lease.expiresAt <= now)
              && forall g :: 0 <= g < generations && Obtains(claims, lease.token, g, grace, now) ==> g >= 1
  {
    if ClaimKey(lease.token, 0) !in claims {
      assert Obtains(claims, lease.token, 0, grace, now);
    } else if Inspect(Some(lease), claims, grace, now).None? && !Live(lease, now) {
      forall g | 0 <= g < generations
        ensures !Obtains(claims, lease.token, g, grace, now)
      {
        if g > 0 { assert !AgedBelow(claims, lease.token, g, grace, now); }
      }
    }
  }

  /** Deleting the claim that the verdict names lets the next lone acquirer in at once. */
  lemma DeletingTheClaimUnwedges(lease: Option<Body>, claims: map<ClaimKey, Claim>, grace: Time, now: Time)
    requires Inspect(lease, claims, grace, now).Some?
    ensures var w := Inspect(lease, claims, grace, now).value;
            && Inspect(lease, claims - {w.claimKey}, grace, now).None?
            && Obtains(claims - {w.claimKey}, w.lease.token, 0, grace, now)
            && !Live(w.lease, now) && grace <= now - w.claim.claimedAt
  {
  }

  /** The operator's remedy: delete the claim that the verdict names, and the next lone acquirer holds, whatever other
      claims are left and however old they are. */
  method Unwedge(repo: Repo, self: ActorId, owner: string, ttl: Time, settle: nat, generations: nat, grace: Time)
    returns (lease: Lease)
    requires Inspect(repo.lease, repo.claims, grace, repo.clock).Some? && generations >= 1
    requires repo.lease.value.token.acquiredAt < repo.clock
    requires repo.stragglers > 0 ==> repo.straggler.token == repo.lease.value.token
    requires repo.stragglers <= RECLAIM_ECHO_RETRIES
    modifies repo
    ensures repo.lease.Some? && repo.lease == lease.body && repo.lease.value.token.owner == owner
    ensures repo.lease.value.token != old(repo.lease).value.token && !repo.lease.value.released
  {
    var w := Inspect(repo.lease, repo.claims, grace, repo.clock).value;
    DeletingTheClaimUnwedges(repo.lease, repo.claims, grace, repo.clock);
    repo.claims := repo.claims - {w.claimKey};
    lease := new Lease(repo, self, ttl, settle);
    var r := lease.Acquire(owner, generations, grace);
    assert r == Held;
  }
}
