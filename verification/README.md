# Verified model of the repository's protocols

A Dafny 4.11 model of the hard core of the backup tool: the lock-free protocols that it runs over an object store
offering only atomic create-if-absent, overwrite, read, list and delete, and the streaming algorithms that must agree
with a simple specification. `dafny verify dfyconfig.toml` checks everything.

| area | files |
|---|---|
| backup lease | `LeaseModel` (transition system), `LeaseInvariant`, `LeaseQuiet`, `LeaseClaims`, `LeaseSuccession`, `LeaseSettle`, `LeaseGrace` (three ways to exclude), `LeaseRuns`, `LeaseTiming` (what is needed and what suffices), `LeaseAcquire` (the operations as code, recovery, wedge report) |
| audit chain | `AuditEvents`, `AuditAppend`, `AuditVerify`, `AuditExact`, `AuditSearch`, `AuditAnchors` |
| evidence bundles | `BundleSigning`, `BundleEvents`, `BundleVerify` |
| approvals | `ApprovalModel`, `ApprovalRuns`, `ApprovalPermanence` |
| backup comparison | `TopDeltas`, `Compare`, `CompareSets`, `CompareScan`, `CompareFiles` |
| manifests | `JsonTokens`, `JsonScan`, `JsonKeys`, `ManifestValidate`, `ManifestStream` |
| shared | `Common`, `Bytes`, `Sorting` |

How the concurrent parts are modelled: a state holds the store and one program counter per call in progress; every
store access and every look at the clock is a step of its own; a run is any sequence of steps, so every interleaving,
stall and crash is a run. Statements over runs quantify over all step sequences. Loops and in-place updates of the
source are methods with invariants and classes, proved against functions or predicates that the lemmas are about.

## Abstractions

- SHA-256 over events, manifests and anchors is a function parameter assumed collision-free (`Ideal`,
  `Injective`); for events it also never yields the genesis value, is not empty and contains no NUL.
- Ed25519 is a validity predicate together with the set of (key, message) pairs that were signed; JSON encoding, PEM
  and Unicode case folding are function parameters, and the canonical form of a request is the record itself.
- The external sorter returns a sorted permutation; records with equal keys may come in any order.
- Lease: one clock that never runs back, distinct (Owner, AcquiredAt) tokens, claim keys that name their victim, failed
  puts without effect, and one holder's Renew and Release one after the other. A call may fail or stop at any point.
  The delays that matter (`Config`) are parameters, each either bounded or unbounded: from the check or read that
  justifies a write to that write (Renew, Release, overwrite, re-assertion, staleness verdict), from a claim's stamp to
  its claimant's last overwrite, re-assertion or drop (`claimSlack`), and from reading another's claim to the verdict
  on its age (`ageSlack`). Two more parameters say how long leases are at least (`minTtl`) and whether holders call
  Release once (`releaseOnce`).
- Append: `head()` is, in the transition system, any committed event of the shard or none, which covers every stale or
  lost pointer; between any two steps of the `Log` class the other appenders may commit.
- Approvals: `Tamper` and `Block` let anybody with write access rewrite bodies and lay down markers, and the votes that
  a gate reads are arbitrary as long as their valid signatures were made; permanence and vote results are about runs
  without these two steps.

## Where the code and its documentation differ

- Lease exclusion is documented through the break claim, with wedgeGrace as a generous bound on the time that a live
  claimant needs. A timed reading would ask Renew to write within 2*settle of its check, Release within settle of its
  own, and a claimant to be done before its claim counts as abandoned. That does not suffice, and `LeaseTiming` has the
  runs, each for every timing of its kind:
  - the staleness verdict reads the clock after the second read of the lease, so a stall between the two adds to the
    renewal's delay (`LateVerdict`);
  - a claim that was read, then dropped after a failed put, is later judged abandoned while another claimant has taken
    the dropped generation again; the time of a claim and the time of that verdict must together stay below wedgeGrace
    (`LateAge`, `LateReassert`, and `LateOverwrite` for claimants without a bound);
  - a reclaimer whose verification is cancelled tombstones its own fresh body, which can be claimed at once; with the
    old holder's tombstone landing under it, two claims in a row and a release must fit into wedgeGrace
    (`LateAbandon`), and a holder that keeps calling Release defeats every grace period (`RepeatedRelease`);
  - leases shorter than their claimants' time are claimed while their own claimant can still re-assert them
    (`ShortLeases`);
  - a tombstone that lands settle after its check meets a confirmed successor (`LateRelease`).

  `LeaseGrace.GraceExcludes` proves exclusion once these are ruled out: with claimants done n after their stamp, age
  verdicts m after their read and tombstones l < settle after their check, n+m < grace, 2n+l < grace, n+l < the
  shortest lease, and one Release per holder. `LeaseTiming.ExactTiming` joins this with the two other ways to exclude
  (no healing; every write within settle of its read) and with what is needed. `DefaultsExclude` is the case of the
  constants in the code.
- Chain verification cuts PrevHash at a NUL, because the link record is split at NULs; `AuditExact.CleanMeansLinked` says
  exactly when a clean verdict means the documented linkage. The exactness and witness results hold regardless.
- Truncation is noticed through the head pointer, but a shard whose events are all gone is passed over, whatever its head
  pointer says (`AuditExact.DeletionIsNoticed`).
- `Search` computes its compaction threshold 2*Limit+1024 in 64 bits; a limit of 2^62-512 or more wraps and the first
  compaction slices beyond the list (`AuditSearch.Overruns`).
- The bundle documentation has the signature cover a SHA-256; the code signs the canonical bytes themselves.
- `FileCounts` is documented to sum to the larger file count; `CompareSets.CountsSumToUnion` says when that is so.
- `Validate` sums chunk lengths in 64 bits without an overflow check; `ManifestValidate.AcceptedTilesIffNoOverflow`.
- The transparency log is documented to store anchors under their sequence; the code uses the derived ID, and
  `LatestAnchor` compares sequences across shards.
- `SweepExpired` can erase RevokedAt (`ApprovalPermanence.SweepErasesRevocation`); redemption is not affected.

## Model

| member | source | states |
|---|---|---|
| `LeaseTiming.ExactTiming` | internal/backup/lease.go:213-590 | For every timing: mutual exclusion holds in every run if renewals and verdicts fit the 2*settle margin and either claims are never healed, or every tombstone, overwrite and re-assertion lands within settle of its read, or the grace period leaves claimants their time; it fails in some run if the margin is missed, or with healing a Release may land settle late, or slow claimants do not fit the grace period; and the two conditions are one wherever a single kind of bound on claimants is in force |
| `LeaseTiming.DefaultsExclude` | internal/backup/lease.go:51-56 | With the code's settle window, TTL and wedgeGrace, any number of generations, claimants done within 14 minutes of their claim, age verdicts within 30 minutes of the read and one prompt Release per holder, exclusion holds in every run |
| `LeaseTiming.LateAge` | internal/backup/lease.go:664-690 | For every timing with healing in which a claim may still be dropped, or used, when a reader of it may judge it abandoned there is a run with two holders: the dropped generation is taken again |
| `LeaseTiming.LateAbandon` | internal/backup/lease.go:404-440 | For every timing with healing and slow claimants in which two claims in a row and a late tombstone outlast wedgeGrace there is a run with two holders, through a verification cancelled after its overwrite |
| `LeaseTiming.RepeatedRelease` | internal/backup/lease.go:555-590 | For every timing with healing and slow claimants, however long the grace period, holders that call Release again and again give a run with two holders |
| `LeaseTiming.ShortLeases` | internal/backup/lease.go:404-427 | Leases that expire while their own claimant can still re-assert them give a run with two holders |
| `LeaseGrace.GraceExcludes` | internal/backup/lease_wedge.go:54-61 | Claimants that stall far beyond the settle window exclude each other for any number of generations, when a claim's time plus an age verdict, and two claims plus a tombstone, stay below wedgeGrace, leases outlive a claim and a tombstone, and holders release once |
| `LeaseGrace.RunsKeepGrace` | internal/backup/lease.go:337-427 | In every reachable state of such a timing at most one claimant can still write, and what it finds stored is its victim, its own body, or a grant that nobody can claim before its time is over |
| `LeaseGrace.GraceHolderIsStored` | internal/backup/lease.go:452-470 | A holder finds its own token stored in every reachable state of such a timing |
| `LeaseClaims.RunsKeepClaims` | internal/backup/lease.go:664-682 | In every reachable state each claimant's claim is stored under its generation, every generation below a stored one is stored and older by the grace period, and a claim read after its time is still the stored one |
| `LeaseClaims.ClaimantsTakeTurns` | internal/backup/lease.go:664-682 | Two claimants of one grant, of whatever generations, are never both within the time of their claims |
| `LeaseTiming.LateVerdict` | internal/backup/lease.go:337-357 | For every timing whose renewal and staleness verdict can outlast 2*settle there is a run with two holders: the reclaimer judges a body it read before the renewal landed |
| `LeaseTiming.LateRelease` | internal/backup/lease.go:560-590 | For every timing with healing in which a Release may land settle or more after its check there is a run with two holders |
| `LeaseTiming.LateOverwrite` | internal/backup/lease.go:362-385 | For every timing with healing in which a claimant may overwrite settle or more after its last read, and has no bound from its claim, there is a run with two holders |
| `LeaseTiming.LateReassert` | internal/backup/lease.go:405-419 | For every timing with healing in which an echo may be re-asserted settle or more after it was seen, by a claimant whose claim may be judged abandoned in the meantime, there is a run with two holders |
| `LeaseSuccession.SuccessionIsLinear` | internal/backup/lease.go:337-427 | With generation-0 claims and no timing assumption, all grants of a deployment form one chain: the n-th overwrite replaces grant n by grant n+1, whatever late Renew or Release writes land |
| `LeaseSuccession.LeaseNeverDisappears` | internal/backup/lease.go:252-260 | Once stored, the lease object is present in every later state of every run |
| `LeaseSuccession.CreatedOnce` | internal/backup/lease.go:252-260 | Create-if-absent of the lease succeeds at most once per run |
| `LeaseSuccession.ClaimsAloneExclude` | internal/backup/lease.go:664-682 | Without healing, the renewal margin alone gives mutual exclusion: claimants, releases and re-assertions may stall for any time |
| `LeaseSettle.PromptWritesExclude` | internal/backup/lease.go:405-427 | With healing, writes that land within the settle window of their read, or of their claim, give mutual exclusion whatever the grace period |
| `LeaseSettle.HolderIsStored` | internal/backup/lease.go:452-470 | Under prompt writes a holder's token is the stored one in every reachable state |
| `LeaseQuiet.RunsKeepQuietInv` | internal/backup/lease.go:476-549 | A grant that a reclaimer judged stale can never again be found unexpired, in every reachable state, when the renewal margin covers the delays |
| `LeaseQuiet.StaleVerdictIsQuiet` | internal/backup/lease.go:352-357 | At the moment of the staleness verdict no renewal of the victim that could revive it is in flight |
| `LeaseInvariant.RunsKeepInv` | internal/backup/lease.go:213-427 | In every reachable state each token was drawn by one actor, each stored body belongs to a grant, and each actor in mid-call only carries bodies it drew or read |
| `LeaseAcquire.Recover` | internal/backup/lease.go:213-427 | From any store contents in which the expiry has passed and every claim has aged, a lone acquirer holds exactly when the lease is absent or some claim generation is free; otherwise nothing changes |
| `LeaseAcquire.LeastFree` | internal/backup/lease.go:664-682 | When all claims of a victim have aged, the first free generation is reached through the aged ones below it |
| `LeaseAcquire.Lease.Acquire` | internal/backup/lease.go:252-427 | Held means that a fresh body of this owner is stored and at most one claim was added; not held means that nothing changed unless more late writes landed than are re-asserted; an absent lease is always taken |
| `LeaseAcquire.Lease.ClaimBreak` | internal/backup/lease.go:664-682 | The generation won is the first one free with every earlier claim older than the grace period; on failure no generation was to be had and no claim was written |
| `LeaseAcquire.Lease.ConfirmReclaim` | internal/backup/lease.go:405-427 | Up to reclaimEchoRetries late writes of the broken grant cannot keep the reclaimer from holding, and it holds only after a settle window |
| `LeaseAcquire.Lease.Renew` | internal/backup/lease.go:476-549 | On success the stored expiry is that of the own grant, one TTL after a moment of the call, later than before, and a settle window has passed; it is kept only when a TTL from now would not be later; it is lost only to another grant, to the 2*settle margin or to a late write of another grant; a healthy holder is extended |
| `LeaseAcquire.Lease.Release` | internal/backup/lease.go:555-590 | Exactly the own grant is replaced by its tombstone, marked released and expiring at the time of the call |
| `LeaseAcquire.VerdictPredictsAcquire` | internal/backup/lease_wedge.go:68-113 | A live lease is never reported; with no wedge reported a stale lease can be taken exactly when its first claim is free; a reported wedge can only be passed through a later generation |
| `LeaseAcquire.Unwedge` | internal/backup/lease_wedge.go:54-113 | Once the claim that the wedge verdict names is deleted, a lone acquirer holds with a fresh grant, whatever other claims are left |
| `AuditEvents.HexSeq` | internal/audit/audit.go:250-258 | The digits filled in from the right are the 16-digit two's-complement hexadecimal form |
| `AuditEvents.SeqRoundTrip` | internal/audit/audit.go:220-248 | The sequence is read back from the storage key of every event of every shard |
| `AuditEvents.KeyInjective` | internal/audit/audit.go:220-222 | Different slots have different storage keys, so a race for a slot is a race for one key |
| `AuditEvents.ShardIsScope` | internal/audit/audit.go:282-312 | Two events are in one shard exactly when they have the same scope up to unsafe characters: the deployment if there is one, else the subject's tenant, else the event's, else none |
| `AuditEvents.SortKeyOrder` | internal/audit/audit.go:1112-1116 | The sign-flipped big-endian sort key orders exactly as the signed 64-bit sequence |
| `AuditEvents.LinkRoundTrip` | internal/audit/audit.go:1197-1214 | The link record gives back hash, PrevHash and ID if and only if PrevHash contains no NUL |
| `AuditAppend.AppendNeverForks` | internal/audit/audit.go:397-568 | In every interleaving of appenders with stale or missing head pointers the chain stays linked, the head pointers stay true, and no committed event changes |
| `AuditAppend.ShardIsInterval` | internal/audit/audit.go:397-568 | The occupied sequences of a shard are exactly 0 to n-1 |
| `AuditAppend.AppendsAreBounded` | internal/audit/audit.go:467-568 | Every append tries strictly increasing slots and at most 1024 of them, even over a store whose bodies disagree with their keys |
| `AuditAppend.CommitIsDurable` | internal/audit/audit.go:467-568 | A committed append is found in its slot, linked to its predecessor and with everything its caller said, in every later state |
| `AuditAppend.LoneAppendCommits` | internal/audit/audit.go:397-568 | An appender alone commits its caller's event directly behind the last event of its shard, linked to it, at the first attempt |
| `AuditAppend.Log.Append` | internal/audit/audit.go:397-568 | With other appenders committing between any two steps, success means that the caller's event, every field but number, link and hash as given, stands in a slot that was free, linked to the event before it and pointed to by the head; giving up means that the shard holds at least 1024 events; a missing action is the only field error |
| `AuditAppend.Log.Head` | internal/audit/audit.go:658-713 | The event that the head record names when it is stored with that hash and sequence; for a missing record, or one whose event is gone or differs, the event of highest sequence, and none exactly for an empty shard |
| `AuditAppend.Log.TryPut` | internal/audit/audit.go:480-568 | The put wins exactly when the slot was free, stores what the caller said, keeps the chain and changes no committed event |
| `AuditAppend.Log.PointHead` | internal/audit/audit.go:595-620 | Only the shard's head pointer changes, to the committed event |
| `AuditVerify.CheckEvent` | internal/audit/audit.go:1096-1111 | A hash that does not recompute is listed as a mismatch, a foreign scope as misfiled, and nothing else changes |
| `AuditVerify.VerifyShard` | internal/audit/audit.go:1076-1181 | Clean exactly when every event hashes to what it records and is filed under its scope, the sorted link records chain from genesis, and the head pointer neither is ahead of nor contradicts the tail |
| `AuditVerify.VerdictOnEvents` | internal/audit/audit.go:1076-1181 | The verdict on sorted byte records is the verdict on the events in sequence order, with PrevHash cut at a NUL |
| `AuditVerify.VerifyChain` | internal/audit/audit.go:1052-1070 | OK exactly when every shard is clean in the sequence order walked; on the objects as listed OK means that every hash recomputes, every event is filed under its scope, and every shard with events has a head pointer that the events present reach |
| `AuditExact.VerifyIsExact` | internal/audit/audit.go:1076-1181 | Whatever the store holds: under an untouched head pointer a clean shard with events reaches at least its sequence, and one that ends there holds exactly the committed events up to it |
| `AuditExact.DeletionIsNoticed` | internal/audit/audit.go:1131-1181 | With the head pointer of sequence k in place, what is left of a committed chain is clean if and only if every event up to k is still there, without a gap after it, or no event is left at all |
| `AuditExact.VerifyIsComplete` | internal/audit/audit.go:1076-1181 | A chain built by appends alone, listed in any order, with its head pointer, verifies clean |
| `AuditExact.RunsVerifyClean` | internal/audit/audit.go:397-568 | The same for every state reached by a run of concurrent appends from an empty repository |
| `AuditExact.CleanMeansLinked` | internal/audit/audit.go:1197-1214 | A clean verdict means the documented linkage if and only if no PrevHash contains a NUL |
| `AuditExact.NulHidesTail` | internal/audit/audit.go:1197-1214 | A PrevHash of genesis, a NUL and more is accepted as the first event of a chain |
| `AuditExact.VerifyAnchor` | internal/audit/audit.go:1333-1414 | OK means that the object whose key carries the anchored sequence recomputes to its own hash and to the anchored one, and is given when all such objects do; each failure names its cause |
| `AuditExact.WitnessedPrefix` | internal/audit/audit.go:1333-1414 | With a clean shard and a confirmed anchor at sequence k of a genuine chain, the first k+1 events in sequence order are the originally committed ones |
| `AuditExact.CheckWitness` | internal/audit/audit.go:1052-1181 | When VerifyChain and VerifyAnchor both succeed on an arbitrary store, the anchored shard has a sequence order that begins with the originally committed events up to the anchor |
| `AuditExact.PinnedPrefix` | internal/audit/audit.go:1076-1181 | One genuine event inside a walkable sequence fixes its own position and everything before it |
| `AuditSearch.Search` | internal/audit/audit.go:891-922 | For every arrival order, limit and direction, ties included, the result is the oldest (under Reverse the newest) limit of all matches, sorted by timestamp and then ID in that direction, and the sort-then-cut result where no two matches tie; it fails exactly when 2*Limit+1024 overflows 64 bits and enough matches arrive |
| `AuditSearch.Trim` | internal/audit/audit.go:873-881 | Compaction lets go only of matches with limit others, still held, that they do not precede |
| `AuditSearch.Collect` | internal/audit/audit.go:899-909 | Holding a compacted list instead of all matches never changes the first limit, with ties or without |
| `AuditSearch.DistinctIdsSeparate` | internal/audit/audit.go:862-869 | Events with distinct IDs are never tied |
| `AuditAnchors.IdNamesHead` | internal/audit/transparency.go:251-271 | Two anchors share an ID exactly when they witness the same head of the same shard |
| `AuditAnchors.AnchorLog.PutAnchor` | internal/audit/transparency.go:147-184 | The first witness of a head stays and later ones get its ID; a missing head hash is refused |
| `AuditAnchors.AnchorLog.LatestAnchor` | internal/audit/transparency.go:207-234 | An anchor of the highest sequence over all shards together, none exactly for an empty log |
| `BundleSigning.CanonicalBytes` | internal/audit/bundle.go:372-382 | The loop produces the count followed by every file's length-prefixed name and body |
| `BundleSigning.CanonicalInjective` | internal/audit/bundle.go:372-392 | For names under 2^32 and bodies under 2^64 bytes the signed bytes determine the list of files, contents and order |
| `BundleSigning.LongNameCollides` | internal/audit/bundle.go:372-386 | A name of 2^32 bytes that starts with a suitable length encodes like a file without a name |
| `BundleSigning.VerifiedIsGenuine` | internal/audit/bundle.go:751-764 | Files that verify under a key that signed only genuine exports are exactly one genuine export's list |
| `BundleVerify.VerifyBundle` | internal/audit/bundle.go:662-811 | Verified exactly when the archive is well formed, signed by the key it carries, names that key or none, its events pass, and the key is trusted if a trust set is given; malformed, badly signed and untrusted archives are told apart |
| `BundleVerify.EvidenceIsGenuine` | internal/audit/bundle.go:662-811 | In a bundle verified under a trust set, the manifest and the events that were judged are those of one genuine export |
| `BundleEvents.VerifyEvents` | internal/audit/bundle.go:840-932 | Accepted exactly when the count agrees, every event recomputes, no shard has a consecutive pair that does not link and a reached head matches; linkage is asserted exactly when every shard's slice is consecutive |
| `BundleEvents.ExportThenVerify` | internal/audit/bundle.go:195-333 | Whatever filter, limit and order: the exported events are the search result, those of a genuine chain are accepted, the recorded head is matched exactly when there are events, and linkage is asserted exactly for consecutive slices |
| `BundleEvents.GenuineAccepted` | internal/audit/bundle.go:861-912 | Any list of committed events, of any shards in any order, passes the hash and linkage checks |
| `BundleEvents.AssertedSliceIsGenuine` | internal/audit/bundle.go:889-912 | In an arbitrary bundle with asserted linkage, a shard's slice that ends in a committed event consists of committed events |
| `BundleEvents.GroupByShard` | internal/audit/bundle.go:889-897 | Every shard's slice is collected in bundle order, every shard that occurs is listed once |
| `ApprovalRuns.RedemptionIsSound` | internal/approval/approval.go:877-938 | For arbitrary stored bodies and votes, every successful Gate had at least max(threshold, MinThreshold) distinct roster keys, listed in the request, that signed a message with exactly these terms, op (when one is expected) and target included |
| `ApprovalRuns.RedeemedOnce` | internal/approval/approval.go:924-938 | At most one Gate ever succeeds per request ID inside the body, in every interleaving and under whatever name the body is stored |
| `ApprovalRuns.RedeemableIsRedeemed` | internal/approval/approval.go:877-938 | A gate that meets no interference succeeds, and lays down the marker, whenever the checks hold for what it reads |
| `ApprovalPermanence.LateGatesNeverWin` | internal/approval/approval.go:589-659 | A Gate that reads the body after some Revoke returned or after ExpiresAt never succeeds, in every interleaving of Create, Approve, Revoke, SweepExpired and Gate |
| `ApprovalPermanence.RevokedIsNeverRedeemed` | internal/approval/approval.go:585-622 | In every honest run a Gate that begins after the put of a Revoke of its request never succeeds, whatever other writers do in between |
| `ApprovalPermanence.ExpiredIsNeverRedeemed` | internal/approval/approval.go:877-900 | In every honest run a Gate that begins after the stored deadline never succeeds |
| `ApprovalPermanence.OpenRequestTakesVote` | internal/approval/approval.go:505-583 | A key listed in a request that is neither revoked nor past its deadline gets its vote in: an Approve left alone ends with a stored vote that counts |
| `ApprovalPermanence.SweepErasesRevocation` | internal/approval/approval.go:624-659 | From every state with a lapsed, unrevoked request there is a run after which a returned Revoke has left no RevokedAt |
| `ApprovalPermanence.VotesAreNeverLost` | internal/approval/approval.go:505-659 | A stored vote that verifies stays stored and keeps verifying through every rewrite of the body |
| `ApprovalPermanence.VotesAreCounted` | internal/approval/approval.go:330-372 | Every stored vote is among the approvers that Get and Gate count |
| `ApprovalPermanence.CastVoteIsStored` | internal/approval/approval.go:565-591 | After an Approve's put the vote stored for its key counts: its own when the slot was free, else the one that was there |
| `ApprovalModel.ValidApprovers` | internal/approval/approval.go:686-716 | The fingerprints of the distinct allowlisted keys with a valid signature on the canonical request |
| `ApprovalModel.ApproversAreSigners` | internal/approval/approval.go:686-716 | A fingerprint counts exactly when a vote under it bears the valid signature of a listed key with that fingerprint on the request as created, all its terms included |
| `ApprovalModel.Aggregate` | internal/approval/approval.go:330-372 | One vote per claimed fingerprint, the last readable one, sorted by fingerprint |
| `ApprovalModel.NothingShadowed` | internal/approval/approval.go:330-372 | A vote that counts is counted when no other file claims its fingerprint |
| `ApprovalModel.TrustedApprovals` | internal/approval/policy.go:206-218 | The number of distinct valid approvers on the roster |
| `ApprovalModel.Decide` | internal/approval/approval.go:892-923 | Gate's checks pass exactly when the request is unrevoked, unconsumed, not past its deadline, bound to op and target, approved by threshold allowlisted keys and by max(threshold, MinThreshold) of them on the roster; every refusal is told apart by its cause |
| `ApprovalModel.PassMeansSigned` | internal/approval/policy.go:169-174 | Passing the checks means at least max(threshold, MinThreshold) distinct roster keys, listed in the request, with a valid signature on a message with these terms |
| `ApprovalModel.StatusOf` | internal/approval/approval.go:739-757 | Revoked wins, a consumed request stays approved, expiry comes before quorum, and otherwise approved means threshold distinct approvers |
| `Compare.MergeJoin` | internal/backup/compare.go:199-279 | For any two sorted streams the counts are those of the path bags, the unchanged bytes those of the equal records, and the list is the TopN largest changes, largest first and by path among equals |
| `CompareSets.CountsAreSetCounts` | internal/backup/compare.go:252-278 | With distinct paths the three counts are the set differences and the intersection of the paths |
| `CompareSets.CountsSumToUnion` | internal/backup/compare.go:35-37 | The three counts sum to the size of the union; the documented larger file count is right exactly when one side's paths contain the other's |
| `CompareSets.DeltasAreExact` | internal/backup/compare.go:252-278 | With distinct paths the join meets exactly the removed, added and changed files of the two sets |
| `CompareSets.TopIsCanonical` | internal/backup/compare.go:197-218 | The reported list does not depend on how the deltas are listed: any enumeration without repeats sorts to the same list |
| `CompareSets.UnchangedIsCommon` | internal/backup/compare.go:262-273 | With distinct paths the unchanged files are the records both sides have |
| `TopDeltas.FirstAreLargest` | internal/backup/compare.go:199-206 | The first TopN in rank order are the TopN largest changes: none left out is larger, and paths ascend among equals |
| `TopDeltas.TopList.Offer` | internal/backup/compare.go:207-217 | The bounded list after an offer is the first TopN of the old list with the delta inserted in rank order |
| `TopDeltas.TopList.Search` | internal/backup/compare.go:211-211 | The binary search finds the position in front of which the delta belongs |
| `TopDeltas.TopList.InsertAt` | internal/backup/compare.go:212-216 | Shifting and storing keeps the ranking, a full list loses its last element |
| `CompareScan.ScanSide` | internal/backup/compare.go:310-350 | The unique and shared chunk counts and bytes are those of the hash sets, when a hash determines its length |
| `CompareScan.DerivedIsExact` | internal/backup/compare.go:184-191 | The counts and bytes derived by subtraction are those of the set differences |
| `CompareFiles.CompareManifests` | internal/backup/compare.go:152-290 | The whole comparison: chunk counts and bytes of the hash sets, path counts of the bags, the first TopN deltas; with unique paths on each side it is the diff of the two sets of files |
| `CompareFiles.JoinIsDiff` | internal/backup/compare.go:152-290 | With unique paths on each side the counts are the set differences, the intersection and the differing part of it, the shared bytes those of the files equal on both sides, and the list is the TopN largest of the removed, added and changed files with their sizes on both sides |
| `JsonKeys.CheckValue` | internal/backup/manifest.go:454-509 | The walk ends on every token stream; on a well-formed value it consumes exactly that value and is content exactly when at every depth all keys are schema keys and none fold together |
| `JsonKeys.RejectDuplicateKeys` | internal/backup/manifest.go:436-443 | A well-formed document is accepted exactly when it is unambiguous |
| `JsonKeys.OneMeaning` | internal/backup/manifest.go:436-509 | Along every path of schema names a first-wins exact reader and a last-wins folding reader of an accepted document see the same value |
| `JsonKeys.AsciiFold` | internal/backup/manifest.go:530-551 | Within ASCII two keys fold together exactly when they differ in case only |
| `JsonKeys.DisguisedKeyHasTwoMeanings` | internal/backup/manifest.go:477-482 | A lone key that only folds to a field name is bound by one reader and missed by the other |
| `JsonKeys.CheckSchemaKey` | internal/backup/manifest.go:513-524 | True exactly for non-empty keys over a-z, 0-9 and underscore |
| `JsonTokens.SkipIsExact` | internal/backup/manifest_scan.go:65-91 | For every value and whatever follows, skipping consumes precisely that value |
| `JsonTokens.SkipValue` | internal/backup/manifest_scan.go:65-91 | The depth counter stops where the brackets opened by the first token are closed, and fails exactly at the end or at broken text |
| `JsonScan.ScanTopLevel` | internal/backup/manifest_scan.go:18-63 | On an object the scan fails exactly when a wanted key holds something other than a string or null; else it returns the bindings and consumes exactly the object |
| `JsonScan.BindIsFullParse` | internal/backup/manifest_scan.go:18-63 | For every wanted name the scan holds exactly the last non-null string that a full parse binds under equal-folding |
| `ManifestValidate.AcceptedTilesIffNoOverflow` | internal/backup/manifest.go:832-866 | An accepted file is tiled exactly by its chunks if and only if their lengths really sum below 2^63 |
| `ManifestValidate.OverflowIsAccepted` | internal/backup/manifest.go:842-857 | Three chunks whose lengths sum to 2^64 are accepted as an empty file |
| `ManifestValidate.AcceptedIsWellFormed` | internal/backup/manifest.go:720-743 | Acceptance means distinct (tablespace, path) pairs across files and across directories, no directory in place of a file, and exact tiling |
| `ManifestValidate.DistinctIsAccepted` | internal/backup/manifest.go:720-743 | Sound files and directories with distinct pairs are never refused |
| `ManifestValidate.IdentityInjective` | internal/backup/manifest.go:753-755 | The identity key names tablespace and path, whatever characters the path has |
| `ManifestValidate.ValidateFile` | internal/backup/manifest.go:832-866 | True exactly when path and size are sound, every chunk starts at the 64-bit running sum and the sum is the size |
| `ManifestValidate.Validate` | internal/backup/manifest.go:720-743 | True exactly when every file is sound, keys are unique, and directories are safe, unique and not files |
| `ManifestStream.StreamFiles` | internal/backup/manifest_store_stream.go:49-90 | Over a store that may change between any two Gets: success means that the delivered entries are those of bytes verified and identified first; the callback sees a prefix of one body's entries, once, and only after a body was vouched for; it succeeds exactly when the primary is vouched for and delivered, or else the replica is; a bad reference and a tombstone are refused as such |
| `ManifestStream.StreamGated` | internal/backup/manifest_store_stream.go:93-140 | Nothing is delivered before the verifying pass, success needs equal digests, and every failure of the delivering pass is marked |
| `ManifestStream.StreamUngated` | internal/backup/manifest_store_stream.go:102-113 | A failure is marked as a delivery failure exactly when an entry was delivered |
| `ManifestStream.StreamFilesAttestationless` | internal/backup/manifest_store_stream.go:39-90 | Without the gate the callback still sees a prefix of one body's entries, once, and nothing of a tombstoned or badly named backup; it succeeds exactly when the primary streams whole, or gave no entry and the replica streams whole and is the requested backup |

## Left out

- LeaseTiming.ExactTiming: sufficient and necessary conditions are both stated for every timing, and they coincide (`ClearCut`) when claimants are bounded by their reads alone, or by their claim alone with leases longer than a claim and a release; where a read bound of settle or more but below the claim bound is in force as well, or leases are shorter than that, they need not coincide (`ShortLeases` refutes a part of it).
- Lease: Maintain, owner names, mutex use inside one process, and an operator who deletes objects by hand.
- LeaseAcquire.Lease.Acquire: storage errors with dropClaim and abandonReclaim are steps of the transition system only; a single process without rivals except late writes of the previous holder; interference is the subject of the transition system.
- Backends without an atomic conditional put, for leases and for appends.
- Audit: retention-pruned chains, legacy date-bucketed keys, WORM retention options, the error loggers and AppendOrLog.
- Audit: sequence numbers are unbounded in the chain model; keys, sort keys and parsing are modelled with their 64-bit range.
- AuditAppend.Log.Append: default schema, timestamp, ID and actor stamping, and storage errors; the draft is taken as stamped.
- AuditAnchors.AnchorLog.LatestAnchor: unreadable anchor objects, which the source skips, are not modelled.
- AuditSearch.Search: the filter is an arbitrary predicate on events; storage errors during the scan end the search and are not modelled.
- BundleVerify.VerifyBundle: tar and gzip handling with its size limits, and the fingerprint spellings of the trust set, are not modelled.
- Bundle filters, anchors file, README and chain proof contents; they are opaque signed files.
- Approval: Create's validation, listing with filters, LoadPolicy and addPEMs; a roster is a map from fingerprint to key.
- Approval: signatures enter the history only through Approve, so keys that also sign elsewhere would have to be added to it.
- Compare: nil manifests, iterator errors, and overflow of the 64-bit totals of sizes.
- ManifestValidate.Validate: the header and encryption checks, which are independent comparisons of single fields.
- Manifest: path cleaning (a predicate), parsing, signing and the streamed form of Validate.
- ManifestStream.StreamFiles: StreamManifest is taken by its contract (entries in order, signature judged at the end, digest of all bytes).
- JSON lexing: a document is its token sequence, with a mark where the text stops being JSON.
- ScanManifestFields, hold markers, soft delete and commit, the agent, anomaly detection, the air-gap checks, the command line and compatibility layers.
