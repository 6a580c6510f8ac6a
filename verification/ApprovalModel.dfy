/** Approval requests, the votes on them, and the decision of the gate. */
module ApprovalModel {
  import opened Common
  import opened Sorting

  /** Everything fixed when a request is created; `expiresAt` is absent for the zero time. */
  datatype Terms = Terms(
    schema: string, id: string, op: string, target: string, threshold: int, approverKeys: seq<string>,
    createdAt: int, expiresAt: Option<int>, rest: string)

  datatype Vote = Vote(fingerprint: string, signature: string, note: string)

  datatype Revocation = Revocation(at: int, who: string, reason: string)

  /** The stored body; `consumedAt` is filled in from the marker by Get and never stored. */
  datatype Request = Request(
    terms: Terms, approvals: seq<Vote>, revoked: Option<Revocation>, expiredAt: Option<int>, consumedAt: Option<int>)

  /** canonicalForApproval: what approvers sign. */
  function Canonical(r: Request): Request {
    Request(r.terms, [], None, None, None)
  }

  /** The signed message tells everything fixed at creation, and nothing that changes afterwards. */
  lemma CanonicalNamesTerms(r: Request, q: Request)
    ensures Canonical(r) == Canonical(q) <==> r.terms == q.terms
    ensures Canonical(r).terms == r.terms
  {
  }

  /** A raw Ed25519 public key. */
  datatype Key = Key(raw: string)

  /** PEM parsing, fingerprints and Ed25519. */
  datatype Crypto = Crypto(
    parse: string -> Option<Key>, fingerprint: Key -> string, sign: (Key, Request) -> string,
    valid: (Key, Request, string) -> bool)

  /** Fingerprints identify keys and a signature speaks for one key and one message. */
  ghost predicate Sound(c: Crypto) {
    && (forall a, b :: c.fingerprint(a) == c.fingerprint(b) ==> a == b)
    && (forall k, m :: c.valid(k, m, c.sign(k, m)))
    && (forall k, m, k', m' :: c.valid(k', m', c.sign(k, m)) ==> k' == k && m' == m)
  }

  // ---- votes ----

  /** Fingerprint to key, for the allowlisted keys that parse. */
  function AllowList(c: Crypto, raws: seq<string>): map<string, Key> {
    if raws == [] then map[]
    else
      var front, pub := AllowList(c, Front(raws)), c.parse(Last(raws));
      if pub.None? then front else front[c.fingerprint(pub.value) := pub.value]
  }

  predicate Counts(c: Crypto, r: Request, v: Vote) {
    var allowed := AllowList(c, r.terms.approverKeys);
    v.fingerprint in allowed && c.valid(allowed[v.fingerprint], Canonical(r), v.signature)
  }

  /** The fingerprints of the allowlisted approvers whose signature on the request verifies. */
  function Approvers(c: Crypto, r: Request, votes: seq<Vote>): set<string> {
    set v | v in votes && Counts(c, r, v) :: v.fingerprint
  }

  method BuildAllowList(c: Crypto, raws: seq<string>) returns (allowed: map<string, Key>)
    ensures allowed == AllowList(c, raws)
  {
    allowed := map[];
    var i := 0;
    while i < |raws|
      invariant 0 <= i <= |raws| && allowed == AllowList(c, raws[..i])
    {
      var pub := c.parse(raws[i]);
      assert Front(raws[..i + 1]) == raws[..i];
      if pub.Some? { allowed := allowed[c.fingerprint(pub.value) := pub.value]; }
      i := i + 1;
    }
    assert raws[..i] == raws;
  }

  /** validApprovers */
  method ValidApprovers(c: Crypto, r: Request) returns (seen: set<string>)
    ensures seen == Approvers(c, r, r.approvals)
  {
    var canon := Canonical(r);
    var allowed := BuildAllowList(c, r.terms.approverKeys);
    seen := {};
    var i := 0;
    while i < |r.approvals|
      invariant 0 <= i <= |r.approvals| && seen == Approvers(c, r, r.approvals[..i])
    {
      var v := r.approvals[i];
      assert r.approvals[..i + 1] == r.approvals[..i] + [v];
      if v.fingerprint in allowed && c.valid(allowed[v.fingerprint], canon, v.signature) {
        seen := seen + {v.fingerprint};
      }
      i := i + 1;
    }
    assert r.approvals[..i] == r.approvals;
  }

  lemma {:induction false} AllowListed(c: Crypto, raws: seq<string>, fp: string)
    requires fp in AllowList(c, raws)
    ensures c.fingerprint(AllowList(c, raws)[fp]) == fp
    ensures exists raw :: raw in raws && c.parse(raw) == Some(AllowList(c, raws)[fp])
  {
    var pub := c.parse(Last(raws));
    if pub.Some? && c.fingerprint(pub.value) == fp {
      assert Last(raws) in raws;
    } else {
      AllowListed(c, Front(raws), fp);
      var raw :| raw in Front(raws) && c.parse(raw) == Some(AllowList(c, Front(raws))[fp]);
      assert raw in raws;
    }
  }

  /** A listed key that parses is found under its fingerprint. */
  lemma {:induction false} ListedIsAllowed(c: Crypto, raws: seq<string>, raw: string)
    requires Sound(c) && raw in raws && c.parse(raw).Some?
    ensures var k := c.parse(raw).value;
            c.fingerprint(k) in AllowList(c, raws) && AllowList(c, raws)[c.fingerprint(k)] == k
  {
    if raw != Last(raws) {
      assert raw in Front(raws);
      ListedIsAllowed(c, Front(raws), raw);
    }
  }

  /** Who counts as an approver: the fingerprints of listed keys with a valid signature, in a vote under that
      fingerprint, on the request as it was created. */
  lemma ApproversAreSigners(c: Crypto, r: Request, votes: seq<Vote>, fp: string)
    requires Sound(c)
    ensures fp in Approvers(c, r, votes) <==>
              exists v, raw :: v in votes && raw in r.terms.approverKeys && SignedBy(c, r.terms, v, raw, fp)
  {
    if fp in Approvers(c, r, votes) {
      var v :| v in votes && Counts(c, r, v) && v.fingerprint == fp;
      AllowListed(c, r.terms.approverKeys, fp);
      var raw :| raw in r.terms.approverKeys && c.parse(raw) == Some(AllowList(c, r.terms.approverKeys)[fp]);
      assert SignedBy(c, r.terms, v, raw, fp);
    }
    if v, raw :| v in votes && raw in r.terms.approverKeys && SignedBy(c, r.terms, v, raw, fp) {
      ListedIsAllowed(c, r.terms.approverKeys, raw);
      assert Counts(c, r, v);
    }
  }

  /** Vote `v` bears the signature of the key `raw`, of fingerprint `fp`, on the fresh request with these terms. */
  predicate SignedBy(c: Crypto, terms: Terms, v: Vote, raw: string, fp: string) {
    && v.fingerprint == fp && c.parse(raw).Some? && c.fingerprint(c.parse(raw).value) == fp
    && c.valid(c.parse(raw).value, Request(terms, [], None, None, None), v.signature)
  }

  // ---- aggregation of the per-approver files ----

  /** The last parsed file that claims fingerprint `fp`. */
  function LastClaim(files: seq<Option<Vote>>, fp: string): Option<Vote> {
    if files == [] then None
    else if Last(files).Some? && Last(files).value.fingerprint == fp then Last(files)
    else LastClaim(Front(files), fp)
  }

  /** byFP: malformed files are skipped, a later claim of a fingerprint replaces an earlier one. */
  method CollectVotes(files: seq<Option<Vote>>) returns (byFP: map<string, Vote>)
    ensures forall fp :: fp in byFP <==> LastClaim(files, fp).Some?
    ensures forall fp :: fp in byFP ==> LastClaim(files, fp) == Some(byFP[fp])
  {
    byFP := map[];
    var i := 0;
    while i < |files|
      invariant 0 <= i <= |files|
      invariant forall fp :: fp in byFP <==> LastClaim(files[..i], fp).Some?
      invariant forall fp :: fp in byFP ==> LastClaim(files[..i], fp) == Some(byFP[fp])
    {
      assert Front(files[..i + 1]) == files[..i];
      if files[i].Some? { byFP := byFP[files[i].value.fingerprint := files[i].value]; }
      i := i + 1;
    }
    assert files[..i] == files;
  }

  /** The approvals of a request as Get presents them: one per claimed fingerprint. */
  ghost predicate Aggregates(files: seq<Option<Vote>>, merged: seq<Vote>) {
    && (forall i :: 0 <= i < |merged| ==> LastClaim(files, merged[i].fingerprint) == Some(merged[i]))
    && (forall fp :: LastClaim(files, fp).Some? ==> LastClaim(files, fp).value in merged)
    && (forall i, j :: 0 <= i < j < |merged| ==> StringLess(merged[i].fingerprint, merged[j].fingerprint))
  }

  lemma ByFingerprintIsOrder()
    ensures StrictOrder(StringLess)
  {
    forall a: string
      ensures !StringLess(a, a)
    {
      StringTotal(a, a);
    }
    forall a, b, c | StringLess(a, b) && StringLess(b, c)
      ensures StringLess(a, c)
    {
      StringTransitive(a, b, c);
    }
  }

  /** The keys of a map, in any order. */
  method KeysOf(m: map<string, Vote>) returns (keys: seq<string>)
    ensures forall k :: k in keys <==> k in m
    ensures Separates(StringLess, keys)
  {
    keys := [];
    var todo := m.Keys;
    while todo != {}
      invariant todo <= m.Keys
      invariant forall k :: k in keys <==> k in m && k !in todo
      invariant forall i, j :: 0 <= i < j < |keys| ==> keys[i] != keys[j]
      decreases todo
    {
      var k :| k in todo;
      keys := keys + [k];
      todo := todo - {k};
    }
    forall i, j | 0 <= i < j < |keys|
      ensures StringLess(keys[i], keys[j]) || StringLess(keys[j], keys[i])
    {
      StringTotal(keys[i], keys[j]);
    }
  }

  /** The re-flattening of Get, sorted by fingerprint. */
  method Aggregate(files: seq<Option<Vote>>) returns (merged: seq<Vote>)
    ensures Aggregates(files, merged)
  {
    var byFP := CollectVotes(files);
    var keys := KeysOf(byFP);
    var fps := Sort(StringLess, keys);
    ByFingerprintIsOrder();
    SortAscends(StringLess, keys);
    SortElements(StringLess, keys);
    assert forall k :: k in fps ==> k in multiset(fps) && k in multiset(keys);
    assert forall k :: k in keys ==> k in multiset(keys) && k in multiset(fps);
    merged := [];
    var i := 0;
    while i < |fps|
      invariant 0 <= i <= |fps| == |keys| && |merged| == i
      invariant forall j :: 0 <= j < i ==> fps[j] in byFP && merged[j] == byFP[fps[j]]
    {
      assert fps[i] in fps;
      merged := merged + [byFP[fps[i]]];
      i := i + 1;
    }
    AggregatedFrom(files, byFP, fps, merged);
  }

  lemma {:induction false} LastClaimNamed(files: seq<Option<Vote>>, fp: string)
    ensures LastClaim(files, fp).Some? ==> LastClaim(files, fp).value.fingerprint == fp && LastClaim(files, fp) in files
  {
    if files != [] { LastClaimNamed(Front(files), fp); }
  }

  lemma AggregatedFrom(files: seq<Option<Vote>>, byFP: map<string, Vote>, fps: seq<string>, merged: seq<Vote>)
    requires forall fp :: fp in byFP <==> LastClaim(files, fp).Some?
    requires forall fp :: fp in byFP ==> LastClaim(files, fp) == Some(byFP[fp])
    requires Ascends(StringLess, fps) && (forall fp :: fp in byFP ==> fp in fps) && |merged| == |fps|
    requires forall j :: 0 <= j < |fps| ==> fps[j] in byFP && merged[j] == byFP[fps[j]]
    ensures Aggregates(files, merged)
  {
    forall j | 0 <= j < |fps|
      ensures merged[j].fingerprint == fps[j]
    {
      LastClaimNamed(files, fps[j]);
    }
    forall fp | LastClaim(files, fp).Some?
      ensures LastClaim(files, fp).value in merged
    {
      var j :| 0 <= j < |fps| && fps[j] == fp;
    }
  }

  /** When every file names the fingerprint it is stored under, nothing is shadowed. */
  lemma {:induction false} LastClaimOnly(files: seq<Option<Vote>>, v: Vote)
    requires Some(v) in files
    requires forall f :: f in files && f.Some? && f.value.fingerprint == v.fingerprint ==> f.value == v
    ensures LastClaim(files, v.fingerprint) == Some(v)
  {
    if Last(files) != Some(v) {
      assert Last(files) in files;
      assert Some(v) in Front(files);
      LastClaimOnly(Front(files), v);
    }
  }

  lemma NothingShadowed(c: Crypto, r: Request, files: seq<Option<Vote>>, merged: seq<Vote>, v: Vote)
    requires Aggregates(files, merged) && Some(v) in files && Counts(c, r, v)
    requires forall f :: f in files && f.Some? && f.value.fingerprint == v.fingerprint ==> f.value == v
    ensures v.fingerprint in Approvers(c, r, merged)
  {
    LastClaimOnly(files, v);
  }

  // ---- status and gate ----

  datatype Status = Pending | Approved | Expired | Revoked

  /** The request's own deadline has passed. */
  predicate Lapsed(t: Terms, now: int) {
    t.expiresAt.Some? && now > t.expiresAt.value
  }

  /** computeStatus */
  function StatusOf(c: Crypto, r: Request, now: int): (st: Status)
    ensures st == Revoked <==> r.revoked.Some?
    ensures st == Expired <==>
              r.revoked.None? && r.consumedAt.None? && r.terms.expiresAt.Some? && now > r.terms.expiresAt.value
    ensures st == Approved <==>
              && r.revoked.None?
              && (r.consumedAt.Some?
                  || ((r.terms.expiresAt.Some? ==> now <= r.terms.expiresAt.value)
                      && |Approvers(c, r, r.approvals)| >= r.terms.threshold))
  {
    if r.revoked.Some? then Revoked
    else if r.consumedAt.Some? then Approved
    else if Lapsed(r.terms, now) then Expired
    else if |Approvers(c, r, r.approvals)| >= r.terms.threshold then Approved
    else Pending
  }

  /** The operator's roster by fingerprint, and the floor for every threshold. */
  datatype Policy = Policy(trusted: map<string, Key>, minThreshold: int)

  /** requiredApprovals */
  function Required(p: Policy, r: Request): int {
    if r.terms.threshold > p.minThreshold then r.terms.threshold else p.minThreshold
  }

  method CountCommon(valid: set<string>, roster: set<string>) returns (n: nat)
    ensures n == |valid * roster|
  {
    n := 0;
    var todo := valid;
    while todo != {}
      invariant n + |todo * roster| == |valid * roster|
      decreases todo
    {
      var fp :| fp in todo;
      assert (todo - {fp}) * roster == todo * roster - {fp};
      if fp in roster { n := n + 1; }
      todo := todo - {fp};
    }
  }

  /** trustedApprovals */
  method TrustedApprovals(c: Crypto, p: Policy, r: Request) returns (n: nat)
    ensures n == |Approvers(c, r, r.approvals) * p.trusted.Keys|
  {
    var valid := ValidApprovers(c, r);
    n := CountCommon(valid, p.trusted.Keys);
  }

  datatype Decision =
    | Pass
    | WasRevoked
    | WasExpired
    | ThresholdNotMet
    | WasConsumed
    | OpMismatch
    | TargetMismatch
    | NoRoster
    | Untrusted

  /** Unrevoked, unconsumed, within its deadline, and approved by enough allowlisted keys. */
  predicate Quorate(c: Crypto, r: Request, now: int) {
    && r.revoked.None? && r.consumedAt.None? && !Lapsed(r.terms, now)
    && |Approvers(c, r, r.approvals)| >= r.terms.threshold
  }

  predicate Bound(r: Request, op: string, target: string) {
    (op != "" ==> r.terms.op == op) && r.terms.target == target
  }

  /** Every condition that Gate checks before it tries to consume the request. */
  ghost predicate Redeemable(c: Crypto, p: Policy, r: Request, op: string, target: string, now: int) {
    && Quorate(c, r, now) && Bound(r, op, target)
    && p.trusted.Keys != {} && |Approvers(c, r, r.approvals) * p.trusted.Keys| >= Required(p, r)
  }

  /** The checks of Gate on the request as read. */
  method Decide(c: Crypto, p: Policy, r: Request, op: string, target: string, now: int) returns (d: Decision)
    ensures d == Pass <==> Redeemable(c, p, r, op, target, now)
    ensures d == Pass <==>
              && r.revoked.None? && r.consumedAt.None? && (r.terms.expiresAt.Some? ==> now <= r.terms.expiresAt.value)
              && (op == "" || r.terms.op == op) && r.terms.target == target && p.trusted.Keys != {}
              && |Approvers(c, r, r.approvals)| >= r.terms.threshold
              && |Approvers(c, r, r.approvals) * p.trusted.Keys| >= Max(r.terms.threshold, p.minThreshold)
    ensures d == WasRevoked <==> r.revoked.Some?
    ensures d == WasConsumed <==> r.revoked.None? && r.consumedAt.Some?
    ensures d == WasExpired <==>
              r.revoked.None? && r.consumedAt.None? && r.terms.expiresAt.Some? && now > r.terms.expiresAt.value
    ensures d == ThresholdNotMet <==>
              r.revoked.None? && r.consumedAt.None? && !Lapsed(r.terms, now) && !Quorate(c, r, now)
    ensures d == Untrusted <==>
              && Quorate(c, r, now) && Bound(r, op, target) && p.trusted.Keys != {}
              && |Approvers(c, r, r.approvals) * p.trusted.Keys| < Max(r.terms.threshold, p.minThreshold)
    ensures d == OpMismatch <==> Quorate(c, r, now) && op != "" && r.terms.op != op
    ensures d == TargetMismatch <==> Quorate(c, r, now) && (op != "" ==> r.terms.op == op) && r.terms.target != target
    ensures d == NoRoster <==> Quorate(c, r, now) && Bound(r, op, target) && p.trusted.Keys == {}
  {
    match StatusOf(c, r, now)
    case Revoked => return WasRevoked;
    case Expired => return WasExpired;
    case Pending => return ThresholdNotMet;
    case Approved =>
    if r.consumedAt.Some? {
      return WasConsumed;
    }
    if op != "" && r.terms.op != op {
      return OpMismatch;
    }
    if r.terms.target != target {
      return TargetMismatch;
    }
    if |p.trusted| == 0 {
      assert p.trusted.Keys == {};
      return NoRoster;
    }
    assert p.trusted.Keys != {} by {
      assert |p.trusted.Keys| == |p.trusted|;
    }
    var trusted := TrustedApprovals(c, p, r);
    if trusted < Required(p, r) {
      return Untrusted;
    }
    d := Pass;
  }

  /** A roster built by addPEMs: every key is filed under its own fingerprint. */
  ghost predicate RosterOK(c: Crypto, p: Policy) {
    forall fp :: fp in p.trusted ==> c.fingerprint(p.trusted[fp]) == fp
  }

  /** The roster keys behind a set of fingerprints. */
  function KeysBehind(p: Policy, fps: set<string>): set<Key>
    requires fps <= p.trusted.Keys
  {
    set fp | fp in fps :: p.trusted[fp]
  }

  lemma {:induction false} DistinctKeysBehind(c: Crypto, p: Policy, fps: set<string>)
    requires RosterOK(c, p) && fps <= p.trusted.Keys
    ensures |KeysBehind(p, fps)| == |fps|
  {
    if fps != {} {
      var fp :| fp in fps;
      DistinctKeysBehind(c, p, fps - {fp});
      assert KeysBehind(p, fps) == KeysBehind(p, fps - {fp}) + {p.trusted[fp]};
      forall k | k in KeysBehind(p, fps - {fp})
        ensures k != p.trusted[fp]
      {
        var g :| g in fps - {fp} && p.trusted[g] == k;
        assert c.fingerprint(p.trusted[g]) == g && c.fingerprint(p.trusted[fp]) == fp;
      }
    }
  }

  /** The roster keys whose votes on `r` count. */
  function TrustedSigners(c: Crypto, p: Policy, r: Request): set<Key> {
    KeysBehind(p, Approvers(c, r, r.approvals) * p.trusted.Keys)
  }

  /** The redemption rule: enough distinct roster keys, listed in the request, have a valid signature on a message with
      exactly these terms. */
  lemma PassMeansSigned(c: Crypto, p: Policy, r: Request, op: string, target: string, now: int)
    requires Sound(c) && RosterOK(c, p) && Redeemable(c, p, r, op, target, now)
    ensures |TrustedSigners(c, p, r)| >= Max(r.terms.threshold, p.minThreshold)
    ensures forall k :: k in TrustedSigners(c, p, r) ==>
              && k in p.trusted.Values && (exists raw :: raw in r.terms.approverKeys && c.parse(raw) == Some(k))
              && exists v, m: Request :: v in r.approvals && m.terms == r.terms && c.valid(k, m, v.signature)
  {
    var fps := Approvers(c, r, r.approvals) * p.trusted.Keys;
    DistinctKeysBehind(c, p, fps);
    forall k | k in TrustedSigners(c, p, r)
      ensures k in p.trusted.Values && exists raw :: raw in r.terms.approverKeys && c.parse(raw) == Some(k)
      ensures exists v, m: Request :: v in r.approvals && m.terms == r.terms && c.valid(k, m, v.signature)
    {
      var fp :| fp in fps && p.trusted[fp] == k;
      var v :| v in r.approvals && Counts(c, r, v) && v.fingerprint == fp;
      AllowListed(c, r.terms.approverKeys, fp);
      assert c.fingerprint(p.trusted[fp]) == fp;
      assert c.valid(k, Canonical(r), v.signature);
    }
  }
}
