/** Concurrent Approve, Revoke, SweepExpired and Gate over one store, as a transition system.

    Bodies are rewritten by read-modify-write, votes and consumption markers are write-once.  Every read, write and
    look at the clock is a step of its own, so any interleaving and any crash is a run. */
module ApprovalRuns {
  import opened Common
  import opened ApprovalModel

  datatype Call = Call(id: string, op: string, target: string, policy: Policy)

  datatype Phase =
    | Voting(key: Key, body: Request)
    | Casting(id: string, vote: Vote)
    | Revoking(body: Request, who: string, reason: string)
    | SweepRead(body: Request)
    | Sweeping(body: Request)
    | Stamping(body: Request, at: int)
    | GateRead(call: Call, body: Request, late: bool)
    | GateListed(call: Call, body: Request, late: bool)
    | GateLoaded(call: Call, body: Request, late: bool)
    | GateJudged(call: Call, body: Request, late: bool)
    | GateWon(call: Call, body: Request, late: bool)
    | Over

  /** `signed` and `revokedDone` record history: signatures made, and requests that some Revoke call has returned for.
      A marker remembers which call wrote it, if one did. */
  datatype State = State(
    clock: int, bodies: map<string, Request>, votes: map<(string, string), Vote>, markers: map<string, Option<nat>>,
    signed: set<(Key, Request)>, revokedDone: set<string>, acts: map<nat, Phase>)

  datatype Step =
    | Tick(d: nat)
    | Create(terms: Terms)
    | ApproveRead(a: nat, id: string, key: Key)
    | ApproveSign(a: nat, note: string)
    | ApprovePut(a: nat)
    | RevokeRead(a: nat, id: string, votes: seq<Vote>, who: string, reason: string)
    | RevokePut(a: nat)
    | SweepGet(a: nat, id: string, votes: seq<Vote>)
    | SweepMarker(a: nat)
    | SweepJudge(a: nat)
    | SweepPut(a: nat)
    | GateBody(a: nat, call: Call)
    | GateVotes(a: nat, votes: seq<Vote>)
    | GateMarker(a: nat)
    | GateJudge(a: nat)
    | GatePut(a: nat)
    | Stop(a: nat)
    | Tamper(id: string, body: Request)  // somebody with write access replaces a body
    | Block(id: string)                  // somebody with write access lays down a marker

  predicate Honest(step: Step) {
    !step.Tamper? && !step.Block?
  }

  predicate AllHonest(steps: seq<Step>) {
    forall i :: 0 <= i < |steps| ==> Honest(steps[i])
  }

  /** Whatever votes the store shows, their valid signatures were really made. */
  ghost predicate Plausible(c: Crypto, s: State, votes: seq<Vote>) {
    forall v, k, m :: v in votes && c.valid(k, m, v.signature) ==> (k, m) in s.signed
  }

  function Move(s: State, a: nat, p: Phase): State {
    s.(acts := s.acts[a := p])
  }

  ghost function ApplyApprove(c: Crypto, s: State, step: Step): Option<State>
    requires step.ApproveRead? || step.ApproveSign? || step.ApprovePut?
  {
    match step
    case ApproveRead(a, id, key) =>
      if a in s.acts || id !in s.bodies then None else Some(Move(s, a, Voting(key, s.bodies[id])))
    case ApproveSign(a, note) =>
      if a !in s.acts || !s.acts[a].Voting? then None
      else
        var body, fp := s.acts[a].body, c.fingerprint(s.acts[a].key);
        if body.revoked.Some? || (Lapsed(body.terms, s.clock) && body.terms.id !in s.markers)
           || fp !in AllowList(c, body.terms.approverKeys) then Some(Move(s, a, Over))
        else
          var m := Canonical(body);
          var vote := Vote(fp, c.sign(s.acts[a].key, m), note);
          Some(Move(s, a, Casting(body.terms.id, vote)).(signed := s.signed + {(s.acts[a].key, m)}))
    case ApprovePut(a) =>
      if a !in s.acts || !s.acts[a].Casting? then None
      else
        var slot := (s.acts[a].id, s.acts[a].vote.fingerprint);
        var s' := Move(s, a, Over);
        Some(if slot in s.votes then s' else s'.(votes := s.votes[slot := s.acts[a].vote]))
  }

  ghost function ApplyRevoke(s: State, step: Step): Option<State>
    requires step.RevokeRead? || step.RevokePut?
  {
    match step
    case RevokeRead(a, id, votes, who, reason) =>
      if a in s.acts || id !in s.bodies then None
      else if s.bodies[id].revoked.Some? then Some(Move(s, a, Over).(revokedDone := s.revokedDone + {id}))
      else Some(Move(s, a, Revoking(s.bodies[id].(approvals := votes), who, reason)))
    case RevokePut(a) =>
      if a !in s.acts || !s.acts[a].Revoking? then None
      else
        var p, id := s.acts[a], s.acts[a].body.terms.id;
        var body := p.body.(revoked := Some(Revocation(s.clock, p.who, p.reason)));
        Some(Move(s, a, Over).(bodies := s.bodies[id := body], revokedDone := s.revokedDone + {id}))
  }

  ghost function ApplySweep(s: State, step: Step): Option<State>
    requires step.SweepGet? || step.SweepMarker? || step.SweepJudge? || step.SweepPut?
  {
    match step
    case SweepGet(a, id, votes) =>
      if a in s.acts || id !in s.bodies then None
      else Some(Move(s, a, SweepRead(s.bodies[id].(approvals := votes))))
    case SweepMarker(a) =>
      if a !in s.acts || !s.acts[a].SweepRead? then None
      else
        var body := s.acts[a].body;
        Some(Move(s, a, if body.expiredAt.Some? || body.terms.id in s.markers then Over else Sweeping(body)))
    case SweepJudge(a) =>
      if a !in s.acts || !s.acts[a].Sweeping? then None
      else
        var body := s.acts[a].body;
        var expired := body.revoked.None? && Lapsed(body.terms, s.clock);
        Some(Move(s, a, if expired then Stamping(body, s.clock) else Over))
    case SweepPut(a) =>
      if a !in s.acts || !s.acts[a].Stamping? then None
      else
        var body := s.acts[a].body.(expiredAt := Some(s.acts[a].at));
        Some(Move(s, a, Over).(bodies := s.bodies[body.terms.id := body]))
  }

  /** The stored deadline of a request has passed. */
  predicate PastDeadline(s: State, id: string) {
    id in s.bodies && s.bodies[id].terms.expiresAt.Some? && s.bodies[id].terms.expiresAt.value < s.clock
  }

  ghost function ApplyGate(c: Crypto, s: State, step: Step): Option<State>
    requires step.GateBody? || step.GateVotes? || step.GateMarker? || step.GateJudge? || step.GatePut?
  {
    match step
    case GateBody(a, call) =>
      if a in s.acts || call.id == "" || call.id !in s.bodies then None
      else
        var body := s.bodies[call.id];
        Some(Move(s, a, GateRead(call, body, call.id in s.revokedDone || PastDeadline(s, call.id))))
    case GateVotes(a, votes) =>
      if a !in s.acts || !s.acts[a].GateRead? || !Plausible(c, s, votes) then None
      else
        var p := s.acts[a];
        Some(Move(s, a, GateListed(p.call, p.body.(approvals := votes), p.late)))
    case GateMarker(a) =>
      if a !in s.acts || !s.acts[a].GateListed? then None
      else
        var p := s.acts[a];
        var at := if p.call.id in s.markers then Some(p.body.terms.createdAt) else None;
        Some(Move(s, a, GateLoaded(p.call, p.body.(consumedAt := at), p.late)))
    case GateJudge(a) =>
      if a !in s.acts || !s.acts[a].GateLoaded? then None
      else
        var p := s.acts[a];
        var ok := Redeemable(c, p.call.policy, p.body, p.call.op, p.call.target, s.clock);
        Some(Move(s, a, if ok then GateJudged(p.call, p.body, p.late) else Over))
    case GatePut(a) =>
      if a !in s.acts || !s.acts[a].GateJudged? then None
      else
        var p := s.acts[a];
        if p.body.terms.id in s.markers then Some(Move(s, a, Over))
        else Some(Move(s, a, GateWon(p.call, p.body, p.late)).(markers := s.markers[p.body.terms.id := Some(a)]))
  }

  ghost function Apply(c: Crypto, s: State, step: Step): Option<State> {
    match step
    case Tick(d) => Some(s.(clock := s.clock + d))
    case Create(terms) =>
      if terms.id in s.bodies then None
      else Some(s.(bodies := s.bodies[terms.id := Request(terms, [], None, None, None)]))
    case Stop(a) => if a !in s.acts || s.acts[a].GateWon? then None else Some(Move(s, a, Over))
    case Tamper(id, body) => Some(s.(bodies := s.bodies[id := body]))
    case Block(id) => if id in s.markers then None else Some(s.(markers := s.markers[id := None]))
    case ApproveRead(_, _, _) => ApplyApprove(c, s, step)
    case ApproveSign(_, _) => ApplyApprove(c, s, step)
    case ApprovePut(_) => ApplyApprove(c, s, step)
    case RevokeRead(_, _, _, _, _) => ApplyRevoke(s, step)
    case RevokePut(_) => ApplyRevoke(s, step)
    case SweepGet(_, _, _) => ApplySweep(s, step)
    case SweepMarker(_) => ApplySweep(s, step)
    case SweepJudge(_) => ApplySweep(s, step)
    case SweepPut(_) => ApplySweep(s, step)
    case _ => ApplyGate(c, s, step)
  }

  ghost function Exec(c: Crypto, s: State, steps: seq<Step>): Option<State> {
    if steps == [] then Some(s)
    else
      var before := Exec(c, s, Front(steps));
      if before.None? then None else Apply(c, before.value, Last(steps))
  }

  const START: State := State(0, map[], map[], map[], {}, {}, map[])

  // ---- redemption, with a store that anybody may rewrite ----

  /** Key `k` has signed a message with these terms. */
  ghost predicate Signed(signed: set<(Key, Request)>, k: Key, terms: Terms) {
    exists m :: (k, m) in signed && m.terms == terms
  }

  /** The keys that a successful gate relied on are listed in the request and really signed these terms, with the op
      and target of the call, and there are enough of them. */
  ghost predicate Authorised(c: Crypto, signed: set<(Key, Request)>, call: Call, body: Request) {
    && (call.op != "" ==> body.terms.op == call.op) && body.terms.target == call.target
    && (RosterOK(c, call.policy) ==>
          exists ks: set<Key> ::
            && |ks| >= Max(body.terms.threshold, call.policy.minThreshold)
            && forall k :: k in ks ==>
                 && k in call.policy.trusted.Values && Signed(signed, k, body.terms)
                 && exists raw :: raw in body.terms.approverKeys && c.parse(raw) == Some(k))
  }

  ghost predicate RedemptionOK(c: Crypto, s: State, a: nat)
    requires a in s.acts
  {
    match s.acts[a]
    case GateListed(_, body, _) => Plausible(c, s, body.approvals)
    case GateLoaded(_, body, _) => Plausible(c, s, body.approvals)
    case GateJudged(call, body, _) => Authorised(c, s.signed, call, body)
    case GateWon(call, body, _) =>
      && Authorised(c, s.signed, call, body)
      && body.terms.id in s.markers && s.markers[body.terms.id] == Some(a)
    case _ => true
  }

  ghost predicate RedemptionInv(c: Crypto, s: State) {
    forall a :: a in s.acts ==> RedemptionOK(c, s, a)
  }

  lemma JudgedIsAuthorised(c: Crypto, s: State, call: Call, body: Request)
    requires Sound(c) && Plausible(c, s, body.approvals)
    requires Redeemable(c, call.policy, body, call.op, call.target, s.clock)
    ensures Authorised(c, s.signed, call, body)
  {
    if RosterOK(c, call.policy) {
      PassMeansSigned(c, call.policy, body, call.op, call.target, s.clock);
      var ks := TrustedSigners(c, call.policy, body);
      forall k | k in ks
        ensures Signed(s.signed, k, body.terms)
      {
        var v, m: Request :| v in body.approvals && m.terms == body.terms && c.valid(k, m, v.signature);
        assert (k, m) in s.signed;
      }
    }
  }

  /** Signatures and markers are never taken back. */
  ghost predicate Later(s: State, s': State) {
    && s.signed <= s'.signed
    && forall id :: id in s.markers ==> id in s'.markers && s'.markers[id] == s.markers[id]
  }

  lemma StepIsLater(c: Crypto, s: State, step: Step)
    requires Apply(c, s, step).Some?
    ensures Later(s, Apply(c, s, step).value)
  {
  }

  lemma AuthorisedStays(c: Crypto, s: State, s': State, call: Call, body: Request)
    requires Authorised(c, s.signed, call, body) && s.signed <= s'.signed
    ensures Authorised(c, s'.signed, call, body)
  {
    forall k | Signed(s.signed, k, body.terms)
      ensures Signed(s'.signed, k, body.terms)
    {
      var m :| (k, m) in s.signed && m.terms == body.terms;
    }
  }

  lemma OthersStayOK(c: Crypto, s: State, s': State, a: nat)
    requires Later(s, s') && a in s.acts && a in s'.acts && s'.acts[a] == s.acts[a] && RedemptionOK(c, s, a)
    ensures RedemptionOK(c, s', a)
  {
    var p := s.acts[a];
    if p.GateJudged? || p.GateWon? { AuthorisedStays(c, s, s', p.call, p.body); }
  }

  /** The call whose phase a step changes. */
  function Mover(step: Step): Option<nat> {
    match step
    case Tick(_) => None
    case Create(_) => None
    case Tamper(_, _) => None
    case Block(_) => None
    case _ => Some(step.a)
  }

  lemma OnlyMoverMoves(c: Crypto, s: State, step: Step, a: nat)
    requires Apply(c, s, step).Some? && a in Apply(c, s, step).value.acts && Mover(step) != Some(a)
    ensures a in s.acts && Apply(c, s, step).value.acts[a] == s.acts[a]
  {
  }

  lemma GateIsOK(c: Crypto, s: State, step: Step)
    requires step.GateBody? || step.GateVotes? || step.GateMarker? || step.GateJudge? || step.GatePut?
    requires Sound(c) && ApplyGate(c, s, step).Some? && RedemptionInv(c, s)
    ensures var s' := ApplyGate(c, s, step).value; step.a in s'.acts && RedemptionOK(c, s', step.a)
  {
    if step.a in s.acts { assert RedemptionOK(c, s, step.a); }
    if step.GateJudge? {
      var p := s.acts[step.a];
      if Redeemable(c, p.call.policy, p.body, p.call.op, p.call.target, s.clock) {
        JudgedIsAuthorised(c, s, p.call, p.body);
      }
    }
  }

  /** The other operations never enter a phase of the gate. */
  lemma OthersAreOK(c: Crypto, s: State, step: Step)
    requires Apply(c, s, step).Some? && Mover(step).Some?
    requires !step.GateBody? && !step.GateVotes? && !step.GateMarker? && !step.GateJudge? && !step.GatePut?
    ensures var s' := Apply(c, s, step).value;
            step.a in s'.acts
            && (s'.acts[step.a].Voting? || s'.acts[step.a].Casting? || s'.acts[step.a].Revoking?
                || s'.acts[step.a].SweepRead? || s'.acts[step.a].Sweeping? || s'.acts[step.a].Stamping?
                || s'.acts[step.a].Over?)
  {
  }

  lemma MoverIsOK(c: Crypto, s: State, step: Step, a: nat)
    requires Sound(c) && Apply(c, s, step).Some? && Mover(step) == Some(a) && RedemptionInv(c, s)
    ensures a in Apply(c, s, step).value.acts && RedemptionOK(c, Apply(c, s, step).value, a)
  {
    if step.GateBody? || step.GateVotes? || step.GateMarker? || step.GateJudge? || step.GatePut? {
      GateIsOK(c, s, step);
    } else {
      OthersAreOK(c, s, step);
    }
  }

  lemma StepKeepsRedemption(c: Crypto, s: State, step: Step)
    requires Sound(c) && Apply(c, s, step).Some? && RedemptionInv(c, s)
    ensures RedemptionInv(c, Apply(c, s, step).value)
  {
    var s' := Apply(c, s, step).value;
    StepIsLater(c, s, step);
    forall a | a in s'.acts
      ensures RedemptionOK(c, s', a)
    {
      if Mover(step) == Some(a) {
        MoverIsOK(c, s, step, a);
      } else {
        OnlyMoverMoves(c, s, step, a);
        OthersStayOK(c, s, s', a);
      }
    }
  }

  lemma {:induction false} RunsKeepRedemption(c: Crypto, steps: seq<Step>)
    requires Sound(c) && Exec(c, START, steps).Some?
    ensures RedemptionInv(c, Exec(c, START, steps).value)
  {
    if steps != [] {
      RunsKeepRedemption(c, Front(steps));
      StepKeepsRedemption(c, Exec(c, START, Front(steps)).value, Last(steps));
    }
  }

  /** Every successful gate, in every run and whatever was written to the store, had its op and target signed by at
      least max(threshold, minimum) distinct roster keys. */
  lemma RedemptionIsSound(c: Crypto, steps: seq<Step>, a: nat)
    requires Sound(c) && Exec(c, START, steps).Some?
    requires var s := Exec(c, START, steps).value; a in s.acts && s.acts[a].GateWon?
    ensures var s := Exec(c, START, steps).value; Authorised(c, s.signed, s.acts[a].call, s.acts[a].body)
  {
    RunsKeepRedemption(c, steps);
    assert RedemptionOK(c, Exec(c, START, steps).value, a);
  }

  /** At most one gate ever succeeds per signed request ID, under whatever name the body was stored. */
  lemma RedeemedOnce(c: Crypto, steps: seq<Step>, a: nat, b: nat)
    requires Sound(c) && Exec(c, START, steps).Some?
    requires var s := Exec(c, START, steps).value;
             a in s.acts && b in s.acts && s.acts[a].GateWon? && s.acts[b].GateWon?
             && s.acts[a].body.terms.id == s.acts[b].body.terms.id
    ensures a == b
  {
    RunsKeepRedemption(c, steps);
    var s := Exec(c, START, steps).value;
    assert RedemptionOK(c, s, a) && RedemptionOK(c, s, b);
  }

  // ---- a redeemable request is redeemed ----

  lemma GatePath(c: Crypto, s: State, a: nat, call: Call, votes: seq<Vote>)
    requires a !in s.acts && call.id != "" && call.id in s.bodies && call.id !in s.markers && Plausible(c, s, votes)
    ensures var body, late := s.bodies[call.id], call.id in s.revokedDone || PastDeadline(s, call.id);
            var read, listed := Move(s, a, GateRead(call, body, late)), body.(approvals := votes);
            var loaded := listed.(consumedAt := None);
            && ApplyGate(c, s, GateBody(a, call)) == Some(read)
            && ApplyGate(c, read, GateVotes(a, votes)) == Some(Move(s, a, GateListed(call, listed, late)))
            && ApplyGate(c, Move(s, a, GateListed(call, listed, late)), GateMarker(a))
               == Some(Move(s, a, GateLoaded(call, loaded, late)))
  {
    var body, late := s.bodies[call.id], call.id in s.revokedDone || PastDeadline(s, call.id);
    var read, listed := Move(s, a, GateRead(call, body, late)), body.(approvals := votes);
    var loaded := listed.(consumedAt := None);
    assert Plausible(c, read, votes);
    assert Move(read, a, GateListed(call, listed, late)) == Move(s, a, GateListed(call, listed, late));
    assert Move(Move(s, a, GateListed(call, listed, late)), a, GateLoaded(call, loaded, late))
        == Move(s, a, GateLoaded(call, loaded, late));
  }

  lemma JudgePath(c: Crypto, s: State, a: nat, call: Call, body: Request, late: bool)
    requires body.terms.id !in s.markers && Redeemable(c, call.policy, body, call.op, call.target, s.clock)
    ensures var judged := Move(s, a, GateJudged(call, body, late));
            && ApplyGate(c, Move(s, a, GateLoaded(call, body, late)), GateJudge(a)) == Some(judged)
            && ApplyGate(c, judged, GatePut(a)).Some?
            && var won := ApplyGate(c, judged, GatePut(a)).value;
               won.acts[a] == GateWon(call, body, late) && won.markers == s.markers[body.terms.id := Some(a)]
  {
    assert Move(Move(s, a, GateLoaded(call, body, late)), a, GateJudged(call, body, late))
        == Move(s, a, GateJudged(call, body, late));
  }

  lemma RunStep(c: Crypto, s: State, steps: seq<Step>, t: State, step: Step, t': State) returns (more: seq<Step>)
    requires Exec(c, s, steps) == Some(t) && Apply(c, t, step) == Some(t')
    ensures more == steps + [step] && Exec(c, s, more) == Some(t')
  {
    more := steps + [step];
    assert Front(more) == steps;
  }

  lemma RunGateStep(c: Crypto, s: State, steps: seq<Step>, t: State, step: Step, t': State) returns (more: seq<Step>)
    requires step.GateBody? || step.GateVotes? || step.GateMarker? || step.GateJudge? || step.GatePut?
    requires Exec(c, s, steps) == Some(t) && ApplyGate(c, t, step) == Some(t')
    ensures more == steps + [step] && Exec(c, s, more) == Some(t')
  {
    more := RunStep(c, s, steps, t, step, t');
  }

  lemma GateLoads(c: Crypto, s: State, a: nat, call: Call, votes: seq<Vote>) returns (steps: seq<Step>, late: bool)
    requires a !in s.acts && call.id != "" && call.id in s.bodies && call.id !in s.markers && Plausible(c, s, votes)
    ensures Exec(c, s, steps)
         == Some(Move(s, a, GateLoaded(call, s.bodies[call.id].(approvals := votes, consumedAt := None), late)))
  {
    var body := s.bodies[call.id];
    late := call.id in s.revokedDone || PastDeadline(s, call.id);
    var listed := body.(approvals := votes);
    GatePath(c, s, a, call, votes);
    var t1, t2 := Move(s, a, GateRead(call, body, late)), Move(s, a, GateListed(call, listed, late));
    steps := RunGateStep(c, s, [], s, GateBody(a, call), t1);
    steps := RunGateStep(c, s, steps, t1, GateVotes(a, votes), t2);
    steps := RunGateStep(c, s, steps, t2, GateMarker(a), Move(s, a, GateLoaded(call, listed.(consumedAt := None), late)));
  }

  /** A gate that meets no interference succeeds whenever the checks hold for what it reads. */
  lemma RedeemableIsRedeemed(c: Crypto, s: State, a: nat, call: Call, votes: seq<Vote>) returns (steps: seq<Step>, s': State)
    requires a !in s.acts && call.id != "" && call.id in s.bodies && call.id !in s.markers && Plausible(c, s, votes)
    requires s.bodies[call.id].terms.id !in s.markers
    requires Redeemable(c, call.policy, s.bodies[call.id].(approvals := votes, consumedAt := None), call.op, call.target, s.clock)
    ensures Exec(c, s, steps) == Some(s') && a in s'.acts && s'.acts[a].GateWon?
    ensures s'.markers == s.markers[s.bodies[call.id].terms.id := Some(a)]
  {
    var loaded := s.bodies[call.id].(approvals := votes, consumedAt := None);
    var late;
    steps, late := GateLoads(c, s, a, call, votes);
    JudgePath(c, s, a, call, loaded, late);
    var judged := Move(s, a, GateJudged(call, loaded, late));
    steps := RunGateStep(c, s, steps, Move(s, a, GateLoaded(call, loaded, late)), GateJudge(a), judged);
    s' := ApplyGate(c, judged, GatePut(a)).value;
    steps := RunGateStep(c, s, steps, judged, GatePut(a), s');
  }
}
