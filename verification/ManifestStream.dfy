/** Reading a manifest too large to hold: verify first, deliver second, over objects that may change in between. */
module ManifestStream {
  import opened Common

  type Bytes = string

  datatype Entry = Entry(path: string, size: int, refs: nat)

  /** What the streaming parser makes of a body: the entries it gets to, and whether it gets to the end. */
  datatype Codec = Codec(
    entries: Bytes -> seq<Entry>, complete: Bytes -> bool, signed: Bytes -> bool, sha: Bytes -> string,
    deployment: Bytes -> string, backupId: Bytes -> string)

  datatype Fetched = Body(bytes: Bytes) | NotFound | Unavailable

  /** The store as its readers meet it: what a Get at moment `n` returns for a key.  Any change between two Gets, and
      any failure, is some value of this function. */
  type World = (nat, string) -> Fetched

  datatype Failure =
    | BadRef
    | TombstoneUnknown
    | Tombstoned
    | Cancelled
    | Missing
    | Fetch
    | Parse
    | Signature
    | WrongIdentity
    | Delivery(cause: Failure)
    | Callback
    | ChangedBetween
    | BothFailed

  datatype Info = Info(deployment: string, backupId: string, files: nat, bytes: int, refs: nat, sha: string, key: string)

  datatype Result = Ok(info: Info) | Err(error: Failure)

  function TotalSize(es: seq<Entry>): int {
    if es == [] then 0 else TotalSize(Front(es)) + Last(es).size
  }

  function TotalRefs(es: seq<Entry>): nat {
    if es == [] then 0 else TotalRefs(Front(es)) + Last(es).refs
  }

  /** What a whole pass over `b` learns. */
  function InfoOf(c: Codec, b: Bytes): Info {
    Info(c.deployment(b), c.backupId(b), |c.entries(b)|, TotalSize(c.entries(b)), TotalRefs(c.entries(b)), c.sha(b), "")
  }

  /** The caller's callback: it sees every entry and may fail at any of them. */
  class Sink {
    var got: seq<Entry>
    const accepts: seq<Entry> -> bool

    constructor (accepts: seq<Entry> -> bool)
      ensures got == [] && this.accepts == accepts
    {
      got := [];
      this.accepts := accepts;
    }

    method Deliver(e: Entry) returns (ok: bool)
      modifies this
      ensures got == old(got) + [e] && ok == accepts(got)
    {
      got := got + [e];
      ok := accepts(got);
    }
  }

  /** `after` is `before` plus the first few of `es`. */
  predicate Extends(before: seq<Entry>, after: seq<Entry>, es: seq<Entry>) {
    |before| <= |after| <= |before| + |es| && after == before + es[..|after| - |before|]
  }

  /** The callback takes all of `es` after `before`. */
  ghost predicate TakesAll(accepts: seq<Entry> -> bool, before: seq<Entry>, es: seq<Entry>) {
    forall k :: 0 < k <= |es| ==> accepts(before + es[..k])
  }

  /** StreamManifest's contract: entries in document order as they are parsed, the signature judged at the end. */
  method StreamBody(c: Codec, b: Bytes, verify: bool, sink: Sink?) returns (r: Result)
    modifies sink
    ensures r.Ok? ==> c.complete(b) && (verify ==> c.signed(b)) && r.info == InfoOf(c, b)
    ensures r.Ok? && sink != null ==> sink.got == old(sink.got) + c.entries(b)
    ensures sink != null ==> Extends(old(sink.got), sink.got, c.entries(b))
    ensures sink != null ==> (sink.got == old(sink.got) <==> c.entries(b) == [])
    ensures r.Err? ==> r.error == Callback || r.error == Parse || r.error == Signature
    ensures r.Ok? <==> && c.complete(b) && (verify ==> c.signed(b))
                       && (sink != null ==> TakesAll(sink.accepts, old(sink.got), c.entries(b)))
  {
    var es := c.entries(b);
    var files, bytes, refs := 0, 0, 0;
    ghost var before := if sink != null then sink.got else [];
    while files < |es|
      invariant 0 <= files <= |es|
      invariant bytes == TotalSize(es[..files]) && refs == TotalRefs(es[..files])
      invariant sink != null ==> sink.got == before + es[..files]
      invariant sink != null ==> forall k :: 0 < k <= files ==> sink.accepts(before + es[..k])
    {
      assert Front(es[..files + 1]) == es[..files];
      if sink != null {
        var ok := sink.Deliver(es[files]);
        assert sink.got == before + es[..files + 1];
        if !ok {
          return Err(Callback);
        }
      }
      bytes, refs := bytes + es[files].size, refs + es[files].refs;
      files := files + 1;
    }
    assert es[..files] == es;
    if !c.complete(b) {
      return Err(Parse);
    }
    if verify && !c.signed(b) {
      return Err(Signature);
    }
    r := Ok(Info(c.deployment(b), c.backupId(b), files, bytes, refs, c.sha(b), ""));
  }

  /** One Get, at moment `now`, streamed. */
  method GetAndStream(c: Codec, w: World, now: nat, key: string, verify: bool, sink: Sink?) returns (r: Result)
    modifies sink
    ensures !w(now, key).Body? ==> r == Err(if w(now, key).NotFound? then Missing else Fetch)
    ensures !w(now, key).Body? && sink != null ==> sink.got == old(sink.got)
    ensures w(now, key).Body? ==>
              var b := w(now, key).bytes;
              && (r.Ok? ==> c.complete(b) && (verify ==> c.signed(b)) && r.info == InfoOf(c, b))
              && (r.Ok? && sink != null ==> sink.got == old(sink.got) + c.entries(b))
              && (sink != null ==> Extends(old(sink.got), sink.got, c.entries(b)))
              && (sink != null ==> (sink.got == old(sink.got) <==> c.entries(b) == []))
              && (r.Ok? <==> && c.complete(b) && (verify ==> c.signed(b))
                             && (sink != null ==> TakesAll(sink.accepts, old(sink.got), c.entries(b))))
    ensures r.Err? ==> !r.error.Delivery? && (r.error == Missing <==> w(now, key).NotFound?)
  {
    match w(now, key)
    case NotFound => return Err(Missing);
    case Unavailable => return Err(Fetch);
    case Body(b) => r := StreamBody(c, b, verify, sink);
  }

  /** A body that was read whole, carried a valid signature and was for the requested backup. */
  predicate Vouched(c: Codec, b: Bytes, deployment: string, backupId: string) {
    c.complete(b) && c.signed(b) && c.deployment(b) == deployment && c.backupId(b) == backupId
  }

  predicate VouchedAt(c: Codec, w: World, now: nat, key: string, deployment: string, backupId: string) {
    w(now, key).Body? && Vouched(c, w(now, key).bytes, deployment, backupId)
  }

  /** The delivering pass finds the same bytes and the callback takes all entries. */
  ghost predicate Delivers(w: World, now: nat, key: string, c: Codec, accepts: seq<Entry> -> bool, before: seq<Entry>) {
    w(now + 1, key) == w(now, key) && w(now, key).Body? && TakesAll(accepts, before, c.entries(w(now, key).bytes))
  }

  /** streamOne with the gate: a verifying pass, then a delivering pass.

      Whatever the two Gets return: entries reach the caller only after the first one was vouched for, success means
      exactly the vouched entries were delivered, and a failure of the second pass is marked as one. */
  method StreamGated(c: Codec, w: World, now: nat, key: string, deployment: string, backupId: string, sink: Sink?)
    returns (r: Result)
    requires Injective(c.sha)
    modifies sink
    ensures r.Ok? ==> w(now, key).Body? && Vouched(c, w(now, key).bytes, deployment, backupId)
                      && r.info == InfoOf(c, w(now, key).bytes)
    ensures r.Ok? && sink != null ==> sink.got == old(sink.got) + c.entries(w(now, key).bytes)
    ensures sink != null && sink.got != old(sink.got) ==>
              w(now, key).Body? && Vouched(c, w(now, key).bytes, deployment, backupId)
              && w(now + 1, key).Body? && Extends(old(sink.got), sink.got, c.entries(w(now + 1, key).bytes))
    ensures sink != null && r.Err? && !r.error.Delivery? ==> sink.got == old(sink.got)
    ensures r.Err? ==> (r.error.Delivery? <==> sink != null && VouchedAt(c, w, now, key, deployment, backupId))
    ensures r.Ok? <==> && VouchedAt(c, w, now, key, deployment, backupId)
                       && (sink != null ==> Delivers(w, now, key, c, sink.accepts, old(sink.got)))
    ensures r.Err? ==> (r.error == Missing <==> w(now, key).NotFound?)
  {
    var first := GetAndStream(c, w, now, key, true, null);
    if first.Err? {
      return first;
    }
    if first.info.deployment != deployment || first.info.backupId != backupId {
      return Err(WrongIdentity);
    }
    if sink == null {
      return first;
    }
    var second := GetAndStream(c, w, now + 1, key, false, sink);
    if second.Err? {
      return Err(Delivery(second.error));
    }
    if second.info.sha != first.info.sha {
      return Err(Delivery(ChangedBetween));
    }
    r := Ok(first.info.(files := second.info.files, bytes := second.info.bytes, refs := second.info.refs));
  }

  /** A Get at that moment finds a body with at least one entry. */
  predicate HasEntries(c: Codec, w: World, now: nat, key: string) {
    w(now, key).Body? && c.entries(w(now, key).bytes) != []
  }

  /** One pass over what is found then is complete, and the callback takes it all. */
  ghost predicate StreamsWhole(c: Codec, w: World, now: nat, key: string, sink: Sink?, before: seq<Entry>) {
    && w(now, key).Body? && c.complete(w(now, key).bytes)
    && (sink != null ==> TakesAll(sink.accepts, before, c.entries(w(now, key).bytes)))
  }

  /** streamOne without the gate: one pass, and the `delivered` flag decides how a failure is marked. */
  method StreamUngated(c: Codec, w: World, now: nat, key: string, sink: Sink?) returns (r: Result)
    modifies sink
    ensures r.Ok? ==> w(now, key).Body? && c.complete(w(now, key).bytes) && r.info == InfoOf(c, w(now, key).bytes)
    ensures r.Ok? && sink != null ==> sink.got == old(sink.got) + c.entries(w(now, key).bytes)
    ensures sink != null && sink.got != old(sink.got) ==>
              w(now, key).Body? && Extends(old(sink.got), sink.got, c.entries(w(now, key).bytes))
    ensures r.Err? && sink != null ==> (r.error.Delivery? <==> sink.got != old(sink.got))
    ensures sink != null ==> (sink.got == old(sink.got) <==> !HasEntries(c, w, now, key))
    ensures r.Err? && sink == null ==> !r.error.Delivery?
    ensures r.Ok? <==> && w(now, key).Body? && c.complete(w(now, key).bytes)
                       && (sink != null ==> TakesAll(sink.accepts, old(sink.got), c.entries(w(now, key).bytes)))
  {
    var count := if sink != null then |sink.got| else 0;
    r := GetAndStream(c, w, now, key, false, sink);
    var delivered := sink != null && |sink.got| > count;
    if r.Err? && delivered { r := Err(Delivery(r.error)); }
  }

  datatype Request = Request(deployment: string, backupId: string, primary: string, replica: string)

  /** streamFilesT with the gate.  `dead` is the answer of the tombstone check, `cancelled` the state of the context
      after the primary read.

      A nil error means that the delivered entries are exactly those of bytes that were read, verified and identified
      as the requested backup first.  Whatever happens, the callback has seen a prefix of one body's entries, once, and
      only after some body was vouched for: a delivery that failed is not started again on the replica. */
  method StreamFiles(c: Codec, w: World, q: Request, refOK: bool, dead: Option<bool>, allowTombstoned: bool,
                     cancelled: bool, sink: Sink?) returns (r: Result, ghost at: nat, ghost key: string)
    requires Injective(c.sha)
    modifies sink
    ensures r.Ok? ==> w(at, key).Body? && Vouched(c, w(at, key).bytes, q.deployment, q.backupId)
                      && r.info == InfoOf(c, w(at, key).bytes).(key := key)
    ensures r.Ok? && sink != null ==> sink.got == old(sink.got) + c.entries(w(at, key).bytes)
    ensures sink != null && sink.got != old(sink.got) ==>
              && w(at, key).Body? && Vouched(c, w(at, key).bytes, q.deployment, q.backupId)
              && w(at + 1, key).Body? && Extends(old(sink.got), sink.got, c.entries(w(at + 1, key).bytes))
    ensures key in {q.primary, q.replica}
    ensures !refOK ==> r == Err(BadRef)
    ensures refOK && !allowTombstoned && dead == Some(true) ==> r == Err(Tombstoned)
    ensures !refOK || (!allowTombstoned && dead != Some(false)) ==> r.Err? && (sink != null ==> sink.got == old(sink.got))
    // when it succeeds: on the primary, or on the replica if the primary was not vouched for
    ensures refOK && (allowTombstoned || dead == Some(false)) ==>
              (r.Ok? <==> if VouchedAt(c, w, 0, q.primary, q.deployment, q.backupId)
                          then sink != null ==> Delivers(w, 0, q.primary, c, sink.accepts, old(sink.got))
                          else && !cancelled && VouchedAt(c, w, 2, q.replica, q.deployment, q.backupId)
                               && (sink != null ==> Delivers(w, 2, q.replica, c, sink.accepts, old(sink.got))))
    ensures r.Err? && r.error == Missing ==> w(0, q.primary).NotFound? || VouchedAt(c, w, 0, q.primary, q.deployment, q.backupId)
    ensures (&& refOK && (allowTombstoned || dead == Some(false)) && !cancelled
             && w(0, q.primary).NotFound? && w(2, q.replica).NotFound?) ==>
              r == Err(Missing)
  {
    at, key := 0, q.primary;
    if !refOK {
      return Err(BadRef), at, key;
    }
    if !allowTombstoned {
      if dead.None? {
        return Err(TombstoneUnknown), at, key;
      }
      if dead.value {
        return Err(Tombstoned), at, key;
      }
    }
    r := StreamGated(c, w, 0, q.primary, q.deployment, q.backupId, sink);
    if r.Ok? {
      return Ok(r.info.(key := q.primary)), at, key;
    }
    if cancelled {
      return Err(Cancelled), at, key;
    }
    if r.error.Delivery? {
      return Err(r.error.cause), at, key;
    }
    var primaryErr := r.error;
    at, key := 2, q.replica;
    r := StreamGated(c, w, 2, q.replica, q.deployment, q.backupId, sink);
    if r.Ok? && r.info.deployment == q.deployment && r.info.backupId == q.backupId {
      return Ok(r.info.(key := q.replica)), at, key;
    }
    r := Err(if primaryErr.Missing? && r.Err? && r.error.Missing? then Missing else BothFailed);
  }

  /** The same for reads without the gate: still at most one body's entries, once. */
  method StreamFilesAttestationless(c: Codec, w: World, q: Request, refOK: bool, dead: Option<bool>, cancelled: bool,
                                    sink: Sink?) returns (r: Result, ghost at: nat, ghost key: string)
    modifies sink
    ensures !refOK || dead != Some(false) ==> r.Err? && (sink != null ==> sink.got == old(sink.got))
    ensures refOK && dead == Some(true) ==> r == Err(Tombstoned)
    // when it succeeds: on the primary, or on the replica if the primary gave no entry
    ensures refOK && dead == Some(false) ==>
              (r.Ok? <==>
                 || StreamsWhole(c, w, 0, q.primary, sink, if sink != null then old(sink.got) else [])
                 || (&& !cancelled && (sink != null ==> !HasEntries(c, w, 0, q.primary))
                     && StreamsWhole(c, w, 1, q.replica, sink, if sink != null then old(sink.got) else [])
                     && c.deployment(w(1, q.replica).bytes) == q.deployment && c.backupId(w(1, q.replica).bytes) == q.backupId))
    ensures r.Ok? ==> w(at, key).Body? && c.complete(w(at, key).bytes)
                      && r.info == InfoOf(c, w(at, key).bytes).(key := key)
    ensures r.Ok? && key != q.primary ==> r.info.deployment == q.deployment && r.info.backupId == q.backupId
    ensures r.Ok? && sink != null ==> sink.got == old(sink.got) + c.entries(w(at, key).bytes)
    ensures sink != null && sink.got != old(sink.got) ==>
              w(at, key).Body? && Extends(old(sink.got), sink.got, c.entries(w(at, key).bytes))
  {
    at, key := 0, q.primary;
    if !refOK {
      return Err(BadRef), at, key;
    }
    if dead.None? {
      return Err(TombstoneUnknown), at, key;
    }
    if dead.value {
      return Err(Tombstoned), at, key;
    }
    r := StreamUngated(c, w, 0, q.primary, sink);
    if r.Ok? {
      return Ok(r.info.(key := q.primary)), at, key;
    }
    if cancelled {
      return Err(Cancelled), at, key;
    }
    if r.error.Delivery? {
      return Err(r.error.cause), at, key;
    }
    var primaryErr := r.error;
    at, key := 1, q.replica;
    r := StreamUngated(c, w, 1, q.replica, sink);
    if r.Ok? {
      if r.info.deployment == q.deployment && r.info.backupId == q.backupId {
        return Ok(r.info.(key := q.replica)), at, key;
      }
      r := Err(WrongIdentity);
    }
    r := Err(if primaryErr.Missing? && r.error.Missing? then Missing else BothFailed);
  }
}
