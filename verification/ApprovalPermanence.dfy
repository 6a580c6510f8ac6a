/** What the read-modify-write bodies keep in every interleaving of Create, Approve, Revoke, SweepExpired and Gate. */
module ApprovalPermanence {
  import opened Common
  import opened ApprovalModel
  import opened ApprovalRuns

  /** A body in flight still has the terms of the stored one. */
  ghost predicate Current(s: State, body: Request) {
    body.terms.id in s.bodies && s.bodies[body.terms.id].terms == body.terms
  }

  /** Revoked as read, or past its deadline by now: nothing that redeems. */
  ghost predicate Spent(s: State, body: Request) {
    body.revoked.Some? || Lapsed(body.terms, s.clock)
  }

  ghost predicate PhaseOK(c: Crypto, s: State, p: Phase) {
    match p
    case Voting(_, body) => Current(s, body)
    case Casting(id, v) => id in s.bodies && Counts(c, s.bodies[id], v)
    case Revoking(body, _, _) => Current(s, body)
    case SweepRead(body) => Current(s, body)
    case Sweeping(body) => Current(s, body)
    case Stamping(body, _) => Current(s, body) && Lapsed(body.terms, s.clock)
    case GateRead(_, body, late) => late ==> Spent(s, body)
    case GateListed(_, body, late) => late ==> Spent(s, body)
    case GateLoaded(_, body, late) => late ==> Spent(s, body)
    case GateJudged(_, _, late) => !late
    case GateWon(_, _, late) => !late
    case Over => true
  }

  ghost predicate BodiesOK(s: State) {
    && (forall id :: id in s.bodies ==> s.bodies[id].terms.id == id)
    && (forall id :: id in s.revokedDone ==> id in s.bodies && Spent(s, s.bodies[id]))
  }

  /** The stored vote of `fp` on request `id` verifies. */
  ghost predicate HasVoted(c: Crypto, s: State, id: string, fp: string) {
    (id, fp) in s.votes && id in s.bodies && Counts(c, s.bodies[id], s.votes[(id, fp)])
  }

  /** Every stored vote is filed under its fingerprint and verifies. */
  ghost predicate VotesOK(c: Crypto, s: State) {
    forall slot :: slot in s.votes ==> s.votes[slot].fingerprint == slot.1 && HasVoted(c, s, slot.0, slot.1)
  }

  ghost predicate PhasesOK(c: Crypto, s: State) {
    forall a :: a in s.acts ==> PhaseOK(c, s, s.acts[a])
  }

  ghost predicate Inv(c: Crypto, s: State) {
    BodiesOK(s) && VotesOK(c, s) && PhasesOK(c, s)
  }

  /** Time passes, no body disappears, no terms change. */
  ghost predicate Continues(s: State, s': State) {
    && s.clock <= s'.clock
    && (forall id :: id in s.bodies ==> id in s'.bodies && s'.bodies[id].terms == s.bodies[id].terms)
    && (forall slot :: slot in s.votes ==> slot in s'.votes && s'.votes[slot] == s.votes[slot])
  }

  lemma PhaseStaysOK(c: Crypto, s: State, s': State, p: Phase)
    requires Continues(s, s') && PhaseOK(c, s, p)
    ensures PhaseOK(c, s', p)
  {
  }

  lemma ApproveContinues(c: Crypto, s: State, step: Step)
    requires step.ApproveRead? || step.ApproveSign? || step.ApprovePut?
    requires BodiesOK(s) && ApplyApprove(c, s, step).Some?
    ensures Continues(s, ApplyApprove(c, s, step).value) && BodiesOK(ApplyApprove(c, s, step).value)
  {
  }

  lemma RevokeContinues(c: Crypto, s: State, step: Step)
    requires step.RevokeRead? || step.RevokePut?
    requires Inv(c, s) && ApplyRevoke(s, step).Some?
    ensures Continues(s, ApplyRevoke(s, step).value) && BodiesOK(ApplyRevoke(s, step).value)
  {
    if step.RevokePut? { assert PhaseOK(c, s, s.acts[step.a]); }
  }

  /** The sweep may drop a revocation, but only from a body whose deadline has passed. */
  lemma SweepContinues(c: Crypto, s: State, step: Step)
    requires step.SweepGet? || step.SweepMarker? || step.SweepJudge? || step.SweepPut?
    requires Inv(c, s) && ApplySweep(s, step).Some?
    ensures Continues(s, ApplySweep(s, step).value) && BodiesOK(ApplySweep(s, step).value)
  {
    if step.SweepPut? { assert PhaseOK(c, s, s.acts[step.a]); }
  }

  lemma GateContinues(c: Crypto, s: State, step: Step)
    requires step.GateBody? || step.GateVotes? || step.GateMarker? || step.GateJudge? || step.GatePut?
    requires BodiesOK(s) && ApplyGate(c, s, step).Some?
    ensures Continues(s, ApplyGate(c, s, step).value) && BodiesOK(ApplyGate(c, s, step).value)
  {
  }

  lemma StepContinues(c: Crypto, s: State, step: Step)
    requires Inv(c, s) && Honest(step) && Apply(c, s, step).Some?
    ensures Continues(s, Apply(c, s, step).value) && BodiesOK(Apply(c, s, step).value)
  {
    if step.ApproveRead? || step.ApproveSign? || step.ApprovePut? {
      ApproveContinues(c, s, step);
    } else if step.RevokeRead? || step.RevokePut? {
      RevokeContinues(c, s, step);
    } else if step.SweepGet? || step.SweepMarker? || step.SweepJudge? || step.SweepPut? {
      SweepContinues(c, s, step);
    } else if step.GateBody? || step.GateVotes? || step.GateMarker? || step.GateJudge? || step.GatePut? {
      GateContinues(c, s, step);
    }
  }

  lemma CountsByTerms(c: Crypto, r: Request, r': Request, v: Vote)
    requires r.terms == r'.terms
    ensures Counts(c, r, v) <==> Counts(c, r', v)
  {
  }

  /** The only new vote is the one being cast. */
  lemma VotesAdded(c: Crypto, s: State, step: Step, slot: (string, string))
    requires Apply(c, s, step).Some? && slot in Apply(c, s, step).value.votes
    ensures || slot in s.votes
            || (&& step.ApprovePut? && step.a in s.acts && s.acts[step.a].Casting?
                && slot == (s.acts[step.a].id, s.acts[step.a].vote.fingerprint)
                && Apply(c, s, step).value.votes[slot] == s.acts[step.a].vote)
  {
  }

  lemma StepKeepsVotes(c: Crypto, s: State, step: Step)
    requires Inv(c, s) && Apply(c, s, step).Some? && Continues(s, Apply(c, s, step).value)
    ensures VotesOK(c, Apply(c, s, step).value)
  {
    var s' := Apply(c, s, step).value;
    forall slot | slot in s'.votes
      ensures s'.votes[slot].fingerprint == slot.1 && HasVoted(c, s', slot.0, slot.1)
    {
      VotesAdded(c, s, step, slot);
      if slot !in s.votes { assert PhaseOK(c, s, s.acts[step.a]); }
      CountsByTerms(c, s.bodies[slot.0], s'.bodies[slot.0], s'.votes[slot]);
    }
  }

  /** The vote that Approve is about to cast counts for the request it was signed for. */
  lemma ApproverIsOK(c: Crypto, s: State, step: Step)
    requires step.ApproveRead? || step.ApproveSign? || step.ApprovePut?
    requires Sound(c) && Inv(c, s) && ApplyApprove(c, s, step).Some?
    ensures var s' := ApplyApprove(c, s, step).value; step.a in s'.acts && PhaseOK(c, s', s'.acts[step.a])
  {
    if step.ApproveSign? {
      var p := s.acts[step.a];
      assert PhaseOK(c, s, p);
      var raws, fp := p.body.terms.approverKeys, c.fingerprint(p.key);
      if fp in AllowList(c, raws) { AllowListed(c, raws, fp); }
    }
  }

  lemma RevokerIsOK(c: Crypto, s: State, step: Step)
    requires step.RevokeRead? || step.RevokePut?
    requires Inv(c, s) && ApplyRevoke(s, step).Some?
    ensures var s' := ApplyRevoke(s, step).value; step.a in s'.acts && PhaseOK(c, s', s'.acts[step.a])
  {
  }

  lemma SweeperIsOK(c: Crypto, s: State, step: Step)
    requires step.SweepGet? || step.SweepMarker? || step.SweepJudge? || step.SweepPut?
    requires Inv(c, s) && ApplySweep(s, step).Some?
    ensures var s' := ApplySweep(s, step).value; step.a in s'.acts && PhaseOK(c, s', s'.acts[step.a])
  {
    if step.a in s.acts { assert PhaseOK(c, s, s.acts[step.a]); }
  }

  /** A gate that read a revoked or lapsed body cannot pass its checks. */
  lemma GateIsOK(c: Crypto, s: State, step: Step)
    requires step.GateBody? || step.GateVotes? || step.GateMarker? || step.GateJudge? || step.GatePut?
    requires Inv(c, s) && ApplyGate(c, s, step).Some?
    ensures var s' := ApplyGate(c, s, step).value; step.a in s'.acts && PhaseOK(c, s', s'.acts[step.a])
  {
    if step.a in s.acts { assert PhaseOK(c, s, s.acts[step.a]); }
  }

  lemma MoverIsOK(c: Crypto, s: State, step: Step, a: nat)
    requires Sound(c) && Inv(c, s) && Honest(step) && Apply(c, s, step).Some? && Mover(step) == Some(a)
    ensures var s' := Apply(c, s, step).value; a in s'.acts && PhaseOK(c, s', s'.acts[a])
  {
    if step.ApproveRead? || step.ApproveSign? || step.ApprovePut? {
      ApproverIsOK(c, s, step);
    } else if step.RevokeRead? || step.RevokePut? {
      RevokerIsOK(c, s, step);
    } else if step.SweepGet? || step.SweepMarker? || step.SweepJudge? || step.SweepPut? {
      SweeperIsOK(c, s, step);
    } else if step.GateBody? || step.GateVotes? || step.GateMarker? || step.GateJudge? || step.GatePut? {
      GateIsOK(c, s, step);
    }
  }

  lemma StepKeepsInv(c: Crypto, s: State, step: Step)
    requires Sound(c) && Inv(c, s) && Honest(step) && Apply(c, s, step).Some?
    ensures Inv(c, Apply(c, s, step).value)
  {
    var s' := Apply(c, s, step).value;
    StepContinues(c, s, step);
    StepKeepsVotes(c, s, step);
    forall a | a in s'.acts
      ensures PhaseOK(c, s', s'.acts[a])
    {
      if Mover(step) == Some(a) {
        MoverIsOK(c, s, step, a);
      } else {
        OnlyMoverMoves(c, s, step, a);
        PhaseStaysOK(c, s, s', s.acts[a]);
      }
    }
  }

  lemma {:induction false} RunsKeepInv(c: Crypto, steps: seq<Step>)
    requires Sound(c) && AllHonest(steps) && Exec(c, START, steps).Some?
    ensures Inv(c, Exec(c, START, steps).value)
  {
    if steps != [] {
      assert forall i :: 0 <= i < |Front(steps)| ==> Front(steps)[i] == steps[i];
      RunsKeepInv(c, Front(steps));
      StepKeepsInv(c, Exec(c, START, Front(steps)).value, Last(steps));
    }
  }

  /** Revocation and expiry are permanent: a gate that read the body after some Revoke had returned, or after the
      deadline, never succeeds. */
  lemma LateGatesNeverWin(c: Crypto, steps: seq<Step>, a: nat)
    requires Sound(c) && AllHonest(steps) && Exec(c, START, steps).Some?
    requires var s := Exec(c, START, steps).value; a in s.acts && s.acts[a].GateWon?
    ensures !Exec(c, START, steps).value.acts[a].late
  {
    RunsKeepInv(c, steps);
    var s := Exec(c, START, steps).value;
    assert PhaseOK(c, s, s.acts[a]);
  }

  /** The gate call `a` is over, or goes on with a body that it read too late. */
  ghost predicate Doomed(s: State, a: nat) {
    && a in s.acts
    && match s.acts[a]
       case GateRead(_, _, late) => late
       case GateListed(_, _, late) => late
       case GateLoaded(_, _, late) => late
       case GateJudged(_, _, late) => late
       case GateWon(_, _, late) => late
       case Over => true
       case _ => false
  }

  lemma DoomedGateStep(c: Crypto, s: State, step: Step)
    requires step.GateBody? || step.GateVotes? || step.GateMarker? || step.GateJudge? || step.GatePut?
    requires ApplyGate(c, s, step).Some? && Doomed(s, step.a)
    ensures Doomed(ApplyGate(c, s, step).value, step.a)
  {
  }

  lemma DoomedOtherStep(c: Crypto, s: State, step: Step)
    requires !step.GateBody? && !step.GateVotes? && !step.GateMarker? && !step.GateJudge? && !step.GatePut?
    requires Apply(c, s, step).Some? && Mover(step).Some? && Doomed(s, step.a)
    ensures Doomed(Apply(c, s, step).value, step.a)
  {
  }

  lemma ActsStay(c: Crypto, s: State, step: Step, a: nat)
    requires Apply(c, s, step).Some? && a in s.acts && Mover(step) != Some(a)
    ensures a in Apply(c, s, step).value.acts && Apply(c, s, step).value.acts[a] == s.acts[a]
  {
  }

  lemma StaysDoomed(c: Crypto, s: State, step: Step, a: nat)
    requires Apply(c, s, step).Some? && Doomed(s, a)
    ensures Doomed(Apply(c, s, step).value, a)
  {
    if Mover(step) != Some(a) {
      ActsStay(c, s, step, a);
    } else if step.GateBody? || step.GateVotes? || step.GateMarker? || step.GateJudge? || step.GatePut? {
      DoomedGateStep(c, s, step);
    } else {
      DoomedOtherStep(c, s, step);
    }
  }

  /** A gate call that begins too late is doomed for the rest of the run. */
  lemma {:induction false} LateIsDoomed(c: Crypto, steps: seq<Step>, m: nat, a: nat, call: Call)
    requires m < |steps| && steps[m] == GateBody(a, call) && Exec(c, START, steps).Some? && Exec(c, START, steps[..m]).Some?
    requires var s := Exec(c, START, steps[..m]).value; call.id in s.revokedDone || PastDeadline(s, call.id)
    ensures Doomed(Exec(c, START, steps).value, a)
    decreases |steps|
  {
    var front := Front(steps);
    if m == |steps| - 1 {
      assert front == steps[..m];
    } else {
      assert front[..m] == steps[..m];
      LateIsDoomed(c, front, m, a, call);
      StaysDoomed(c, Exec(c, START, front).value, Last(steps), a);
    }
  }

  lemma RevokedDoneStays(c: Crypto, s: State, step: Step)
    requires Apply(c, s, step).Some?
    ensures s.revokedDone <= Apply(c, s, step).value.revokedDone
  {
  }

  lemma {:induction false} RevokedDoneGrows(c: Crypto, steps: seq<Step>, n: nat)
    requires n <= |steps| && Exec(c, START, steps).Some?
    ensures Exec(c, START, steps[..n]).Some?
    ensures Exec(c, START, steps[..n]).value.revokedDone <= Exec(c, START, steps).value.revokedDone
    decreases |steps|
  {
    if n == |steps| {
      assert steps[..n] == steps;
    } else {
      assert Front(steps)[..n] == steps[..n];
      RevokedDoneGrows(c, Front(steps), n);
      RevokedDoneStays(c, Exec(c, START, Front(steps)).value, Last(steps));
    }
  }

  /** The request that a Revoke puts is recorded as revoked, by whom, when and why. */
  lemma RevokePutRevokes(c: Crypto, s: State, r: nat)
    requires Apply(c, s, RevokePut(r)).Some?
    ensures r in s.acts && s.acts[r].Revoking?
    ensures var p, s' := s.acts[r], Apply(c, s, RevokePut(r)).value;
            && p.body.terms.id in s'.revokedDone && p.body.terms.id in s'.bodies
            && s'.bodies[p.body.terms.id].revoked == Some(Revocation(s.clock, p.who, p.reason))
  {
  }

  /** What is revoked is never redeemed: in every honest run, a gate that begins after a Revoke of its request has
      been stored does not succeed, whatever sweeps and other writers do in between. */
  lemma RevokedIsNeverRedeemed(c: Crypto, steps: seq<Step>, n: nat, r: nat, m: nat, a: nat, call: Call)
    requires Sound(c) && AllHonest(steps) && Exec(c, START, steps).Some? && n < m < |steps|
    requires steps[n] == RevokePut(r) && steps[m] == GateBody(a, call) && Exec(c, START, steps[..n]).Some?
    requires var s := Exec(c, START, steps[..n]).value; r in s.acts && s.acts[r].Revoking? && s.acts[r].body.terms.id == call.id
    ensures var s := Exec(c, START, steps).value; a in s.acts && !s.acts[a].GateWon?
  {
    RevokedDoneGrows(c, steps, m);
    assert steps[..m][..n + 1] == steps[..n + 1];
    RevokedDoneGrows(c, steps[..m], n + 1);
    assert Front(steps[..n + 1]) == steps[..n] && Last(steps[..n + 1]) == RevokePut(r);
    RevokePutRevokes(c, Exec(c, START, steps[..n]).value, r);
    LateIsDoomed(c, steps, m, a, call);
    RunsKeepInv(c, steps);
    var s := Exec(c, START, steps).value;
    assert PhaseOK(c, s, s.acts[a]);
  }

  /** What is past its deadline is never redeemed: a gate that begins then does not succeed. */
  lemma ExpiredIsNeverRedeemed(c: Crypto, steps: seq<Step>, m: nat, a: nat, call: Call)
    requires Sound(c) && AllHonest(steps) && Exec(c, START, steps).Some? && m < |steps|
    requires steps[m] == GateBody(a, call) && Exec(c, START, steps[..m]).Some?
    requires var s := Exec(c, START, steps[..m]).value;
             && call.id in s.bodies && s.bodies[call.id].terms.expiresAt.Some?
             && s.bodies[call.id].terms.expiresAt.value < s.clock
    ensures var s := Exec(c, START, steps).value; a in s.acts && !s.acts[a].GateWon?
  {
    LateIsDoomed(c, steps, m, a, call);
    RunsKeepInv(c, steps);
    var s := Exec(c, START, steps).value;
    assert PhaseOK(c, s, s.acts[a]);
  }

  // ---- votes ----

  lemma {:induction false} RunsContinue(c: Crypto, steps: seq<Step>, n: nat)
    requires Sound(c) && AllHonest(steps) && Exec(c, START, steps).Some? && n <= |steps|
    ensures Exec(c, START, steps[..n]).Some?
    ensures Continues(Exec(c, START, steps[..n]).value, Exec(c, START, steps).value)
    decreases |steps|
  {
    if n == |steps| {
      assert steps[..n] == steps;
    } else {
      var front := Front(steps);
      assert front[..n] == steps[..n];
      assert forall i :: 0 <= i < |front| ==> front[i] == steps[i];
      RunsContinue(c, front, n);
      RunsKeepInv(c, front);
      StepContinues(c, Exec(c, START, front).value, Last(steps));
    }
  }

  /** No rewrite of a body loses or invalidates a vote. */
  lemma VotesAreNeverLost(c: Crypto, steps: seq<Step>, n: nat, id: string, fp: string)
    requires Sound(c) && AllHonest(steps) && Exec(c, START, steps).Some? && n <= |steps|
    requires Exec(c, START, steps[..n]).Some? && HasVoted(c, Exec(c, START, steps[..n]).value, id, fp)
    ensures HasVoted(c, Exec(c, START, steps).value, id, fp)
  {
    RunsContinue(c, steps, n);
    var s, s' := Exec(c, START, steps[..n]).value, Exec(c, START, steps).value;
    CountsByTerms(c, s.bodies[id], s'.bodies[id], s.votes[(id, fp)]);
  }

  /** `files` is a listing of the votes on a request. */
  ghost predicate ListsVotes(s: State, id: string, files: seq<Option<Vote>>) {
    && (forall f :: f in files ==> f.Some? && (id, f.value.fingerprint) in s.votes
                                   && s.votes[(id, f.value.fingerprint)] == f.value)
    && (forall fp :: (id, fp) in s.votes ==> Some(s.votes[(id, fp)]) in files)
  }

  /** Every stored vote is among the approvers that Get and the gate count. */
  lemma VotesAreCounted(c: Crypto, steps: seq<Step>, id: string, fp: string, files: seq<Option<Vote>>, merged: seq<Vote>)
    requires Sound(c) && AllHonest(steps) && Exec(c, START, steps).Some?
    requires ListsVotes(Exec(c, START, steps).value, id, files) && Aggregates(files, merged)
    requires (id, fp) in Exec(c, START, steps).value.votes
    ensures id in Exec(c, START, steps).value.bodies
    ensures fp in Approvers(c, Exec(c, START, steps).value.bodies[id], merged)
  {
    RunsKeepInv(c, steps);
    var s := Exec(c, START, steps).value;
    assert HasVoted(c, s, id, fp);
    NothingShadowed(c, s.bodies[id], files, merged, s.votes[(id, fp)]);
  }

  /** An Approve that gets to its put leaves a vote that counts: its own, or one that was there before. */
  lemma CastVoteIsStored(c: Crypto, steps: seq<Step>, a: nat)
    requires Sound(c) && AllHonest(steps) && Exec(c, START, steps).Some?
    requires Apply(c, Exec(c, START, steps).value, ApprovePut(a)).Some?
    ensures var s := Exec(c, START, steps).value;
            var s', slot := Apply(c, s, ApprovePut(a)).value, (s.acts[a].id, s.acts[a].vote.fingerprint);
            && HasVoted(c, s', slot.0, slot.1)
            && s'.votes[slot] == (if slot in s.votes then s.votes[slot] else s.acts[a].vote)
  {
    RunsKeepInv(c, steps);
    StepKeepsInv(c, Exec(c, START, steps).value, ApprovePut(a));
  }

  /** One honest step more. */
  lemma Extend(c: Crypto, s: State, steps: seq<Step>, t: State, step: Step, t': State) returns (more: seq<Step>)
    requires AllHonest(steps) && Honest(step) && Exec(c, s, steps) == Some(t) && Apply(c, t, step) == Some(t')
    ensures AllHonest(more) && Exec(c, s, more) == Some(t')
  {
    more := steps + [step];
    assert Front(more) == steps;
  }

  lemma ApprovePath(c: Crypto, s: State, a: nat, id: string, key: Key, note: string)
    requires id in s.bodies && a !in s.acts && s.bodies[id].revoked.None? && (PastDeadline(s, id) ==> id in s.markers)
    requires s.bodies[id].terms.id == id && c.fingerprint(key) in AllowList(c, s.bodies[id].terms.approverKeys)
    ensures var s1 := Move(s, a, Voting(key, s.bodies[id]));
            && ApplyApprove(c, s, ApproveRead(a, id, key)) == Some(s1)
            && ApplyApprove(c, s1, ApproveSign(a, note)).Some?
            && var s2 := ApplyApprove(c, s1, ApproveSign(a, note)).value;
               && a in s2.acts && s2.acts[a].Casting? && s2.acts[a].id == id
               && s2.acts[a].vote.fingerprint == c.fingerprint(key)
  {
  }

  /** A key listed in an open request gets its vote in: an Approve that is left alone ends with a stored vote that
      counts. */
  lemma OpenRequestTakesVote(c: Crypto, steps: seq<Step>, a: nat, id: string, key: Key, raw: string, note: string)
    returns (more: seq<Step>, s': State)
    requires Sound(c) && AllHonest(steps) && Exec(c, START, steps).Some?
    requires var s := Exec(c, START, steps).value;
             && id in s.bodies && a !in s.acts && s.bodies[id].revoked.None? && (PastDeadline(s, id) ==> id in s.markers)
             && raw in s.bodies[id].terms.approverKeys && c.parse(raw) == Some(key)
    ensures AllHonest(more) && Exec(c, START, more) == Some(s') && HasVoted(c, s', id, c.fingerprint(key))
  {
    var s := Exec(c, START, steps).value;
    RunsKeepInv(c, steps);
    ListedIsAllowed(c, s.bodies[id].terms.approverKeys, raw);
    ApprovePath(c, s, a, id, key, note);
    var s1 := Move(s, a, Voting(key, s.bodies[id]));
    more := Extend(c, START, steps, s, ApproveRead(a, id, key), s1);
    var s2 := ApplyApprove(c, s1, ApproveSign(a, note)).value;
    more := Extend(c, START, more, s1, ApproveSign(a, note), s2);
    CastVoteIsStored(c, more, a);
    s' := Apply(c, s2, ApprovePut(a)).value;
    more := Extend(c, START, more, s2, ApprovePut(a), s');
  }

  // ---- a sweep may still erase the record of a revocation ----

  lemma SweepPath(c: Crypto, s: State, id: string, a: nat)
    requires id in s.bodies && s.bodies[id].terms.id == id && id !in s.markers && a !in s.acts
    requires s.bodies[id].revoked.None? && s.bodies[id].expiredAt.None? && Lapsed(s.bodies[id].terms, s.clock)
    ensures var body := s.bodies[id].(approvals := []);
            && ApplySweep(s, SweepGet(a, id, [])) == Some(Move(s, a, SweepRead(body)))
            && ApplySweep(Move(s, a, SweepRead(body)), SweepMarker(a)) == Some(Move(s, a, Sweeping(body)))
            && ApplySweep(Move(s, a, Sweeping(body)), SweepJudge(a)) == Some(Move(s, a, Stamping(body, s.clock)))
  {
    var body := s.bodies[id].(approvals := []);
    assert Move(Move(s, a, SweepRead(body)), a, Sweeping(body)) == Move(s, a, Sweeping(body));
    assert Move(Move(s, a, Sweeping(body)), a, Stamping(body, s.clock)) == Move(s, a, Stamping(body, s.clock));
  }

  lemma SweepReadsAndJudges(c: Crypto, s: State, id: string, a: nat) returns (steps: seq<Step>)
    requires id in s.bodies && s.bodies[id].terms.id == id && id !in s.markers && a !in s.acts
    requires s.bodies[id].revoked.None? && s.bodies[id].expiredAt.None? && Lapsed(s.bodies[id].terms, s.clock)
    ensures AllHonest(steps)
    ensures Exec(c, s, steps) == Some(Move(s, a, Stamping(s.bodies[id].(approvals := []), s.clock)))
  {
    var body := s.bodies[id].(approvals := []);
    SweepPath(c, s, id, a);
    steps := Extend(c, s, [], s, SweepGet(a, id, []), Move(s, a, SweepRead(body)));
    steps := Extend(c, s, steps, Move(s, a, SweepRead(body)), SweepMarker(a), Move(s, a, Sweeping(body)));
    steps := Extend(c, s, steps, Move(s, a, Sweeping(body)), SweepJudge(a), Move(s, a, Stamping(body, s.clock)));
  }

  lemma RevokeThenStamp(c: Crypto, s: State, id: string, a: nat, b: nat, steps: seq<Step>, t: State)
    returns (steps': seq<Step>, t': State)
    requires AllHonest(steps) && Exec(c, s, steps) == Some(t) && a != b && b !in t.acts && a in t.acts
    requires id in t.bodies && t.bodies[id].revoked.None? && t.bodies[id].terms.id == id
    requires t.acts[a].Stamping? && t.acts[a].body.terms.id == id && t.acts[a].body.revoked.None?
    ensures AllHonest(steps') && Exec(c, s, steps') == Some(t')
    ensures id in t'.revokedDone && id in t'.bodies && t'.bodies[id].revoked.None?
  {
    var t1 := ApplyRevoke(t, RevokeRead(b, id, [], "", "")).value;
    var more := Extend(c, s, steps, t, RevokeRead(b, id, [], "", ""), t1);
    var t2 := ApplyRevoke(t1, RevokePut(b)).value;
    more := Extend(c, s, more, t1, RevokePut(b), t2);
    t' := ApplySweep(t2, SweepPut(a)).value;
    steps' := Extend(c, s, more, t2, SweepPut(a), t');
  }

  /** From any state with a lapsed, unrevoked, unstamped and unredeemed request: a sweep that read the body before a
      Revoke writes after it, and RevokedAt is gone although the Revoke has returned. */
  lemma SweepErasesRevocation(c: Crypto, s: State, id: string, a: nat, b: nat) returns (steps: seq<Step>, s': State)
    requires id in s.bodies && s.bodies[id].terms.id == id && id !in s.markers && a !in s.acts && b !in s.acts && a != b
    requires s.bodies[id].revoked.None? && s.bodies[id].expiredAt.None? && Lapsed(s.bodies[id].terms, s.clock)
    ensures AllHonest(steps) && Exec(c, s, steps) == Some(s')
    ensures id in s'.revokedDone && id in s'.bodies && s'.bodies[id].revoked.None?
  {
    var sweep := SweepReadsAndJudges(c, s, id, a);
    steps, s' := RevokeThenStamp(c, s, id, a, b, sweep, Exec(c, s, sweep).value);
  }
}
