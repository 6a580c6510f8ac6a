/** Succession through generation-0 break claims.

    The break claim alone, without any assumption on how long an actor may stall, makes all grants of one
    deployment a single chain: the lease object is created once, never disappears, and every later grant
    overwrites exactly the one before it.  With the expiry margin of Renew this gives mutual exclusion. */
module LeaseSuccession {
  import opened Common
  import opened LeaseModel
  import opened LeaseInvariant
  import opened LeaseQuiet

  // ---- one create, no disappearance: any configuration ----

  lemma LeaseSurvivesStep(c: Config, s: State, act: Action)
    requires Apply(c, s, act).Some? && s.lease.Some?
    ensures Apply(c, s, act).value.lease.Some?
  {
  }

  lemma PrefixRuns(c: Config, acts: seq<Action>, n: nat)
    requires Exec(c, acts).Some? && n <= |acts|
    ensures Exec(c, acts[..n]).Some?
    decreases |acts|
  {
    if n < |acts| {
      assert acts[..|acts| - 1][..n] == acts[..n];
      PrefixRuns(c, acts[..|acts| - 1], n);
    } else {
      assert acts[..n] == acts;
    }
  }

  /** Once stored, the lease object is there in every later state. */
  lemma {:induction false} LeaseNeverDisappears(c: Config, acts: seq<Action>, n: nat)
    requires Exec(c, acts).Some? && n <= |acts| && Exec(c, acts[..n]).Some?
    requires Exec(c, acts[..n]).value.lease.Some?
    ensures Exec(c, acts).value.lease.Some?
    decreases |acts|
  {
    if n == |acts| {
      assert acts[..n] == acts;
    } else {
      var before := acts[..|acts| - 1];
      assert before[..n] == acts[..n];
      LeaseNeverDisappears(c, before, n);
      LeaseSurvivesStep(c, Exec(c, before).value, acts[|acts| - 1]);
    }
  }

  /** Action `i` of the run is a create-if-absent that succeeds. */
  predicate Creates(c: Config, acts: seq<Action>, i: nat) {
    && i < |acts| && acts[i].Go? && Exec(c, acts[..i]).Some?
    && var s := Exec(c, acts[..i]).value;
       acts[i].a in s.actors && s.actors[acts[i].a].pc.Create? && s.lease.None?
  }

  /** Create-if-absent succeeds at most once in a run. */
  lemma CreatedOnce(c: Config, acts: seq<Action>, i: nat, j: nat)
    requires Exec(c, acts).Some? && Creates(c, acts, i) && Creates(c, acts, j)
    ensures i == j
  {
    if i < j {
      NotCreatedAgain(c, acts, i, j);
    } else if j < i {
      NotCreatedAgain(c, acts, j, i);
    }
  }

  lemma NotCreatedAgain(c: Config, acts: seq<Action>, i: nat, j: nat)
    requires Exec(c, acts).Some? && Creates(c, acts, i) && i < j < |acts|
    ensures !Creates(c, acts, j)
  {
    PrefixRuns(c, acts, i + 1);
    PrefixRuns(c, acts, j);
    assert acts[..i + 1][..|acts[..i + 1]| - 1] == acts[..i];
    assert acts[..j][..i + 1] == acts[..i + 1];
    LeaseNeverDisappears(c, acts[..j], i + 1);
  }

  // ---- one chain of grants: a single claim generation ----

  /** Program counters of an actor that owns the break claim and has not yet used it. */
  predicate OwnsClaim(pc: PC) {
    pc.Reread? || pc.MintSuccessor? || pc.Overwrite? || pc.DropClaim?
  }

  predicate ClaimHeld(s: State, a: ActorId, pc: PC) {
    && (pc.PutClaim? ==> pc.gen == 0)
    && (OwnsClaim(pc) ==>
          && pc.gen == 0
          && ClaimKey(pc.victim, 0) in s.claims && s.claims[ClaimKey(pc.victim, 0)].breaker == a
          && s.grants != [] && pc.victim == s.grants[|s.grants| - 1])
  }

  /** Every grant but the last was overwritten by the next one, and by no other. */
  predicate Linear(s: State) {
    && |s.succ| == (if s.grants == [] then 0 else |s.grants| - 1)
    && forall i :: 0 <= i < |s.succ| ==> s.succ[i] == (s.grants[i], s.grants[i + 1])
  }

  ghost predicate ChainInv(s: State) {
    && Linear(s)
    && (forall i :: 0 <= i < |s.succ| ==> ClaimKey(s.succ[i].0, 0) in s.claims)
    && (forall a :: a in s.actors ==> ClaimHeld(s, a, s.actors[a].pc))
  }

  /** The claim step: whoever creates the claim of `victim` finds it to be the newest grant. */
  lemma UnclaimedIsLast(s: State, v: Token)
    requires Linear(s) && v in s.grants && ClaimKey(v, 0) !in s.claims
    requires forall i :: 0 <= i < |s.succ| ==> ClaimKey(s.succ[i].0, 0) in s.claims
    ensures v == s.grants[|s.grants| - 1]
  {
    forall i | 0 <= i < |s.succ|
      ensures ClaimKey(s.grants[i], 0) in s.claims
    {
      assert s.succ[i] == (s.grants[i], s.grants[i + 1]);
    }
    var i :| 0 <= i < |s.grants| && s.grants[i] == v;
  }

  /** Only the overwrite adds a grant once the lease exists; everything else leaves the chain as it is. */
  predicate SameChain(s: State, s': State) {
    s'.grants == s.grants && s'.succ == s.succ
  }

  /** What a step does to the claims and to the mover's right to one. */
  predicate ClaimEffect(s: State, s': State, a: ActorId)
    requires a in s.actors && a in s'.actors
  {
    var pc, pc' := s.actors[a].pc, s'.actors[a].pc;
    && SameChain(s, s')
    && (s'.claims == s.claims
        || (pc.PutClaim? && ClaimKey(pc.victim, 0) !in s.claims && pc' == Reread(pc.victim, 0)
            && s'.claims == s.claims[ClaimKey(pc.victim, 0) := Claim(a, pc.at)])
        || (pc.DropClaim? && pc'.Finished? && s'.claims == s.claims - {ClaimKey(pc.victim, 0)}))
    && (OwnsClaim(pc') ==> (pc.PutClaim? && s'.claims != s.claims)
                           || (OwnsClaim(pc) && s'.claims == s.claims && pc'.victim == pc.victim && pc'.gen == 0))
    && (pc'.PutClaim? ==> pc'.gen == 0)
  }

  lemma ClaimStepEffect(c: Config, s: State, a: ActorId)
    requires c.generations == 1 && a in s.actors && ClaimHeld(s, a, s.actors[a].pc) && GoClaim(c, s, a).Some?
    ensures ClaimEffect(s, GoClaim(c, s, a).value, a)
  {
  }

  lemma AcquireStepEffect(c: Config, s: State, a: ActorId)
    requires !Grows(s, Go(a)) && a in s.actors && ClaimHeld(s, a, s.actors[a].pc)
    requires GoAcquire(c, s, a).Some? || GoReclaim(c, s, a).Some?
    ensures ClaimEffect(s, Advance(c, s, a).value, a)
  {
  }

  lemma HolderStepEffect(c: Config, s: State, a: ActorId)
    requires a in s.actors && GoHolder(c, s, a).Some?
    ensures ClaimEffect(s, GoHolder(c, s, a).value, a)
  {
  }

  lemma CallEffect(c: Config, s: State, act: Action)
    requires act.Fail? || act.CallRenew? || act.CallRelease?
    requires act.a in s.actors && ClaimHeld(s, act.a, s.actors[act.a].pc) && Apply(c, s, act).Some?
    ensures ClaimEffect(s, Apply(c, s, act).value, act.a)
  {
  }

  lemma MoveEffect(c: Config, s: State, act: Action)
    requires c.generations == 1 && !act.Tick? && !Grows(s, act) && act.a in s.actors
    requires ClaimHeld(s, act.a, s.actors[act.a].pc) && Apply(c, s, act).Some?
    ensures act.a in Apply(c, s, act).value.actors && ClaimEffect(s, Apply(c, s, act).value, act.a)
  {
    if !act.Go? {
      CallEffect(c, s, act);
    } else if GoClaim(c, s, act.a).Some? {
      ClaimStepEffect(c, s, act.a);
    } else if GoHolder(c, s, act.a).Some? {
      HolderStepEffect(c, s, act.a);
    } else {
      AcquireStepEffect(c, s, act.a);
    }
  }

  /** A claim change by `a` leaves the rights of every other actor alone. */
  lemma OtherClaimHeld(s: State, s': State, a: ActorId, b: ActorId)
    requires a in s.actors && b in s.actors && a != b
    requires a in s'.actors && s'.actors == s.actors[a := s'.actors[a]]
    requires ClaimHeld(s, a, s.actors[a].pc) && ClaimHeld(s, b, s.actors[b].pc)
    requires ClaimEffect(s, s', a)
    ensures ClaimHeld(s', b, s.actors[b].pc)
  {
  }

  lemma MoveKeepsChain(c: Config, s: State, act: Action)
    requires c.generations == 1 && Inv(c, s) && ChainInv(s) && Apply(c, s, act).Some?
    requires !act.Tick? && !Grows(s, act)
    ensures ChainInv(Apply(c, s, act).value)
  {
    var s' := Apply(c, s, act).value;
    var a := act.a;
    InvIsLocal(c, s, a);
    StepMoves(c, s, act);
    MoveEffect(c, s, act);
    EffectKeepsChain(c, s, s', a);
  }

  lemma EffectKeepsChain(c: Config, s: State, s': State, a: ActorId)
    requires ChainInv(s) && Distinct(s.grants)
    requires a in s.actors && a in s'.actors && s'.actors == s.actors[a := s'.actors[a]]
    requires HasVictim(s.actors[a].pc) ==> s.actors[a].pc.victim in s.grants
    requires ClaimEffect(s, s', a)
    ensures ChainInv(s')
  {
    var pc := s.actors[a].pc;
    assert ClaimHeld(s, a, pc);
    if pc.PutClaim? && s'.claims != s.claims { UnclaimedIsLast(s, pc.victim); }
    forall b | b in s'.actors
      ensures ClaimHeld(s', b, s'.actors[b].pc)
    {
      if b != a { OtherClaimHeld(s, s', a, b); }
    }
    forall i | 0 <= i < |s'.succ|
      ensures ClaimKey(s'.succ[i].0, 0) in s'.claims
    {
      assert s.succ[i] == (s.grants[i], s.grants[i + 1]);
    }
  }

  lemma GrowthKeepsChain(c: Config, s: State, act: Action)
    requires c.generations == 1 && Inv(c, s) && ChainInv(s) && Apply(c, s, act).Some?
    requires Grows(s, act) && !(act.Go? && s.actors[act.a].pc.Overwrite?)
    ensures ChainInv(Apply(c, s, act).value)
  {
    var s' := Apply(c, s, act).value;
    if !act.Begin? {
      InvIsLocal(c, s, act.a);
      assert ClaimHeld(s, act.a, s.actors[act.a].pc);
    }
    forall b | b in s'.actors
      ensures ClaimHeld(s', b, s'.actors[b].pc)
    {
      if b != act.a {
        GrowthMovesOne(c, s, act, b);
        InvIsLocal(c, s, b);
        assert ClaimHeld(s, b, s.actors[b].pc);
      }
    }
  }

  /** The overwrite extends the chain by exactly one link. */
  lemma OverwriteKeepsChain(c: Config, s: State, a: ActorId)
    requires c.generations == 1 && Inv(c, s) && ChainInv(s) && a in s.actors && s.actors[a].pc.Overwrite?
    requires Apply(c, s, Go(a)).Some?
    ensures ChainInv(Apply(c, s, Go(a)).value)
  {
    var s' := Apply(c, s, Go(a)).value;
    assert ClaimHeld(s, a, s.actors[a].pc);
    forall b | b in s'.actors
      ensures ClaimHeld(s', b, s'.actors[b].pc)
    {
      if b != a { assert ClaimHeld(s, b, s.actors[b].pc); }
    }
  }

  lemma StepKeepsChain(c: Config, s: State, act: Action)
    requires c.generations == 1 && Inv(c, s) && ChainInv(s) && Apply(c, s, act).Some?
    ensures ChainInv(Apply(c, s, act).value)
  {
    if act.Tick? {
      var s' := Apply(c, s, act).value;
      forall b | b in s'.actors
        ensures ClaimHeld(s', b, s'.actors[b].pc)
      {
        assert ClaimHeld(s, b, s.actors[b].pc);
      }
    } else if !Grows(s, act) {
      MoveKeepsChain(c, s, act);
    } else if act.Go? && s.actors[act.a].pc.Overwrite? {
      OverwriteKeepsChain(c, s, act.a);
    } else {
      GrowthKeepsChain(c, s, act);
    }
  }

  /** Linear succession: no timing assumption, any interleaving, any crash, any late write of an old grant. */
  lemma {:induction false} SuccessionIsLinear(c: Config, acts: seq<Action>)
    requires c.generations == 1 && Exec(c, acts).Some?
    ensures var s := Exec(c, acts).value; Distinct(s.grants) && Linear(s) && ChainInv(s)
  {
    RunsKeepInv(c, acts);
    if acts != [] {
      var before := acts[..|acts| - 1];
      SuccessionIsLinear(c, before);
      RunsKeepInv(c, before);
      StepKeepsChain(c, Exec(c, before).value, acts[|acts| - 1]);
    }
  }

  // ---- mutual exclusion without healing ----

  ghost predicate SucceededAreQuiet(s: State) {
    forall i :: 0 <= i < |s.succ| ==> s.succ[i].0 in s.grants && Quiet(s, s.succ[i].0)
  }

  lemma StepKeepsSucceededQuiet(c: Config, s: State, act: Action)
    requires RenewFits(c) && Inv(c, s) && QuietInv(c, s) && SucceededAreQuiet(s) && Apply(c, s, act).Some?
    ensures SucceededAreQuiet(Apply(c, s, act).value)
  {
    var s' := Apply(c, s, act).value;
    HistoryGrows(c, s, act);
    forall i | 0 <= i < |s'.succ|
      ensures s'.succ[i].0 in s'.grants && Quiet(s', s'.succ[i].0)
    {
      var v := s'.succ[i].0;
      if i >= |s.succ| {
        InvIsLocal(c, s, act.a);
        assert Judged(c, s, s.actors[act.a]);
      }
      QuietStep(c, s, act, v);
    }
  }

  lemma HistoryGrows(c: Config, s: State, act: Action)
    requires Inv(c, s) && Apply(c, s, act).Some?
    ensures var s' := Apply(c, s, act).value;
            && (forall t :: t in s.grants ==> t in s'.grants)
            && (s'.succ == s.succ
                || (act.Go? && act.a in s.actors && s.actors[act.a].pc.Overwrite?
                    && s'.succ == s.succ + [(s.actors[act.a].pc.victim, s.actors[act.a].pc.body.token)]))
  {
    if !act.Tick? && !Grows(s, act) {
      InvIsLocal(c, s, act.a);
      StepMoves(c, s, act);
    }
  }

  /** Only the owner of the newest grant can still hold. */
  lemma HolderOwnsLast(c: Config, s: State, a: ActorId)
    requires Inv(c, s) && Linear(s) && SucceededAreQuiet(s) && Holding(s, a)
    ensures s.grants != [] && s.actors[a].grant.value.token == s.grants[|s.grants| - 1]
    ensures Mine(s, a, s.grants[|s.grants| - 1])
  {
    InvIsLocal(c, s, a);
    var t := s.actors[a].grant.value.token;
    var i :| 0 <= i < |s.grants| && s.grants[i] == t;
    assert i < |s.succ| ==> s.succ[i] == (s.grants[i], s.grants[i + 1]) && Quiet(s, t);
  }

  lemma {:induction false} RunsKeepSucceededQuiet(c: Config, acts: seq<Action>)
    requires RenewFits(c) && Exec(c, acts).Some?
    ensures SucceededAreQuiet(Exec(c, acts).value)
  {
    if acts != [] {
      var before := acts[..|acts| - 1];
      RunsKeepSucceededQuiet(c, before);
      RunsKeepQuietInv(c, before);
      StepKeepsSucceededQuiet(c, Exec(c, before).value, acts[|acts| - 1]);
    }
  }

  /** With generation-0 claims only, the expiry margin is all that mutual exclusion needs: claimants,
      releases and re-assertions may stall for ever and land at any time. */
  lemma ClaimsAloneExclude(c: Config)
    requires c.generations == 1 && RenewFits(c)
    ensures Safe(c)
  {
    forall acts | Exec(c, acts).Some?
      ensures MutualExclusion(Exec(c, acts).value)
    {
      var s := Exec(c, acts).value;
      RunsKeepInv(c, acts);
      SuccessionIsLinear(c, acts);
      RunsKeepSucceededQuiet(c, acts);
      forall a, b | Holding(s, a) && Holding(s, b)
        ensures a == b
      {
        HolderOwnsLast(c, s, a);
        HolderOwnsLast(c, s, b);
      }
    }
  }
}
