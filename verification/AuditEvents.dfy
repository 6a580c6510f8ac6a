/** Audit events, their hash, and the storage keys of a sharded chain. */
module AuditEvents {
  import opened Common
  import opened Bytes

  datatype Subject = Subject(deployment: string, backupId: string, tenant: string, repo: string)

  /** One row of the audit log; `body` stands for the encoded free-form part. */
  datatype Event = Event(
    schema: string, id: string, sequence: int, timestamp: int, actor: string, tenant: string, action: string,
    subject: Subject, body: string, prevHash: string, hash: string)

  /** SHA-256 over the canonical event. */
  type HashFn = Event -> string

  const ZEROS: string := "0000000000000000"
  /** 64 zeros. */
  const GENESIS: string := ZEROS + ZEROS + ZEROS + ZEROS
  const NUL: char := '\0'

  lemma GenesisHasNoNul()
    ensures NUL !in GENESIS
  {
    assert NUL !in ZEROS;
  }

  /** canonicalForHash: the event with its own hash blanked and PrevHash kept. */
  function Canonical(e: Event): Event {
    e.(hash := "")
  }

  function ComputeHash(h: HashFn, e: Event): string {
    h(Canonical(e))
  }

  /** Collision-free on canonical events, never empty nor the genesis value, and printable. */
  ghost predicate Ideal(h: HashFn) {
    && (forall a, b :: h(a) == h(b) && a.hash == "" && b.hash == "" ==> a == b)
    && (forall a :: h(a) != GENESIS && h(a) != "" && NUL !in h(a))
  }

  /** Equal hashes of self-consistent events mean equal events. */
  lemma HashIdentifies(h: HashFn, a: Event, b: Event)
    requires Ideal(h) && a.hash == ComputeHash(h, a) && b.hash == ComputeHash(h, b) && a.hash == b.hash
    ensures a == b
  {
    assert Canonical(a) == Canonical(b);
    assert a == Canonical(a).(hash := a.hash) && b == Canonical(b).(hash := b.hash);
  }

  // ---- shards ----

  function Sanitize(s: string): (r: string)
    ensures |r| == |s|
    ensures '/' !in r && '\\' !in r
    ensures forall i :: 0 <= i < |s| ==> r[i] == if s[i] < ' ' || s[i] in {'/', '\\', '\U{7f}'} then '_' else s[i]
  {
    if s == "" then ""
    else
      var c := s[0];
      [if c == '/' || c == '\\' || c < ' ' || c == '\U{7f}' then '_' else c] + Sanitize(s[1..])
  }

  /** The most specific scope of an event: deployment, then tenant, then the global chain. */
  function ShardKey(e: Event): (shard: string)
    ensures '/' !in shard
  {
    if e.subject.deployment != "" then "d." + Sanitize(e.subject.deployment)
    else if e.subject.tenant != "" then "t." + Sanitize(e.subject.tenant)
    else if e.tenant != "" then "t." + Sanitize(e.tenant)
    else ""
  }

  datatype Scope = Deployment(name: string) | Tenant(name: string) | Global

  /** A deployment decides, whatever the tenants say; then the subject's tenant, then the event's own. */
  predicate HasScope(e: Event, scope: Scope) {
    match scope
    case Deployment(d) => d != "" && e.subject.deployment == d
    case Tenant(t) => && t != "" && e.subject.deployment == ""
                      && (e.subject.tenant == t || (e.subject.tenant == "" && e.tenant == t))
    case Global => e.subject.deployment == "" && e.subject.tenant == "" && e.tenant == ""
  }

  function Sanitized(scope: Scope): Scope {
    match scope
    case Deployment(d) => Deployment(Sanitize(d))
    case Tenant(t) => Tenant(Sanitize(t))
    case Global => Global
  }

  /** Two events are in one shard exactly when their scopes are the same up to unsafe characters. */
  lemma ShardIsScope(e: Event, p: Scope, f: Event, q: Scope)
    requires HasScope(e, p) && HasScope(f, q)
    ensures ShardKey(e) == ShardKey(f) <==> Sanitized(p) == Sanitized(q)
  {
    if ShardKey(e) == ShardKey(f) {
      if p.Deployment? { assert ShardKey(e)[2..] == Sanitize(p.name); }
      if p.Tenant? { assert ShardKey(e)[2..] == Sanitize(p.name); }
      if q.Deployment? { assert ShardKey(f)[2..] == Sanitize(q.name); }
      if q.Tenant? { assert ShardKey(f)[2..] == Sanitize(q.name); }
      assert p.Deployment? || p.Tenant? ==> ShardKey(e)[0] == if p.Deployment? then 'd' else 't';
      assert q.Deployment? || q.Tenant? ==> ShardKey(f)[0] == if q.Deployment? then 'd' else 't';
    }
  }

  function ShardDir(shard: string): string {
    if shard == "" then "audit/" else "audit/shards/" + shard + "/"
  }

  // ---- sequence numbers in keys ----

  function HexDigit(d: nat): char
    requires d < 16
  {
    "0123456789abcdef"[d]
  }

  const WIDTH: nat := 16

  /** The low `w` hexadecimal digits of `n` in two's complement. */
  function Hex(n: int, w: nat): (s: string)
    ensures |s| == w
    decreases w
  {
    if w == 0 then "" else Hex(n / 16, w - 1) + [HexDigit(n % 16)]
  }

  lemma {:induction false} HexChars(n: int, w: nat)
    ensures '/' !in Hex(n, w) && '-' !in Hex(n, w) && '+' !in Hex(n, w)
    decreases w
  {
    if w > 0 { HexChars(n / 16, w - 1); }
  }

  /** hexSeq: the digits are filled in from the right. */
  method HexSeq(n: int) returns (s: string)
    ensures s == Hex(n, WIDTH)
  {
    var out := new char[WIDTH];
    var rest := n;
    var i := WIDTH;
    while i > 0
      invariant 0 <= i <= WIDTH
      invariant Hex(n, WIDTH) == Hex(rest, i) + out[i..]
    {
      out[i - 1] := HexDigit(rest % 16);
      assert out[i - 1..] == [HexDigit(rest % 16)] + out[i..];
      rest := rest / 16;
      i := i - 1;
    }
    s := out[..];
  }

  function KeyOf(shard: string, seq_: int): string {
    ShardDir(shard) + Hex(seq_, WIDTH) + ".json"
  }

  /** keyFor: a function of shard and sequence only. */
  function KeyFor(e: Event): string {
    KeyOf(ShardKey(e), e.sequence)
  }

  function DigitValue(c: char): Option<nat> {
    if '0' <= c <= '9' then Some(c as int - '0' as int)
    else if 'a' <= c <= 'f' then Some(c as int - 'a' as int + 10)
    else if 'A' <= c <= 'F' then Some(c as int - 'A' as int + 10)
    else None
  }

  function ParseDigits(s: string): Option<nat> {
    if s == "" then Some(0)
    else
      var front, last := ParseDigits(s[..|s| - 1]), DigitValue(s[|s| - 1]);
      if front.None? || last.None? then None else Some(16 * front.value + last.value)
  }

  const MAX_INT64: int := 0x7fff_ffff_ffff_ffff

  /** The part of a key behind its last slash. */
  function Base(key: string): string {
    if key == "" || key[|key| - 1] == '/' then "" else Base(key[..|key| - 1]) + [key[|key| - 1]]
  }

  function UpTo(s: string, c: char): string {
    if s == "" || s[0] == c then "" else [s[0]] + UpTo(s[1..], c)
  }

  function TrimJson(s: string): string {
    if |s| >= 5 && s[|s| - 5..] == ".json" then s[..|s| - 5] else s
  }

  /** seqFromEventKey: 16 leading hexadecimal digits of the base name, as a signed 64-bit number. */
  function SeqFromKey(key: string): Option<int> {
    var base := UpTo(TrimJson(Base(key)), '-');
    if |base| != 16 then None
    else
      var v := ParseDigits(if base[0] == '+' then base[1..] else base);
      if v.None? || v.value > MAX_INT64 then None else Some(v.value)
  }

  lemma {:induction false} BaseOf(dir: string, name: string)
    requires dir != "" && dir[|dir| - 1] == '/' && '/' !in name
    ensures Base(dir + name) == name
  {
    if name == "" {
      assert dir + name == dir;
    } else {
      var n := |name| - 1;
      assert (dir + name)[..|dir + name| - 1] == dir + name[..n];
      assert name == name[..n] + [name[n]];
      BaseOf(dir, name[..n]);
    }
  }

  lemma {:induction false} UpToAbsent(s: string, c: char)
    requires c !in s
    ensures UpTo(s, c) == s
  {
    if s != "" { UpToAbsent(s[1..], c); }
  }

  function Pow16(w: nat): nat {
    if w == 0 then 1 else 16 * Pow16(w - 1)
  }

  lemma {:induction false} ParseHex(n: nat, w: nat)
    requires n < Pow16(w)
    ensures ParseDigits(Hex(n, w)) == Some(n)
  {
    if w > 0 {
      ParseHex(n / 16, w - 1);
      assert Hex(n, w)[..w - 1] == Hex(n / 16, w - 1);
      assert DigitValue(HexDigit(n % 16)) == Some(n % 16);
    }
  }

  lemma Pow16Sixteen()
    ensures Pow16(16) == 0x1_0000_0000_0000_0000
  {
    assert Pow16(4) == 65536;
    assert Pow16(8) == 16 * 16 * 16 * 16 * Pow16(4);
    assert Pow16(12) == 16 * 16 * 16 * 16 * Pow16(8);
    assert Pow16(16) == 16 * 16 * 16 * 16 * Pow16(12);
  }

  lemma KeyBase(shard: string, n: int)
    ensures Base(KeyOf(shard, n)) == Hex(n, WIDTH) + ".json"
  {
    var dir, name := ShardDir(shard), Hex(n, WIDTH) + ".json";
    assert KeyOf(shard, n) == dir + name;
    HexChars(n, WIDTH);
    BaseOf(dir, name);
  }

  lemma SeqOfDigits(key: string, digits: string, n: nat)
    requires Base(key) == digits + ".json" && |digits| == 16 && '-' !in digits && '+' !in digits
    requires ParseDigits(digits) == Some(n) && n <= MAX_INT64
    ensures SeqFromKey(key) == Some(n)
  {
    assert (digits + ".json")[16..] == ".json";
    assert TrimJson(digits + ".json") == digits;
    UpToAbsent(digits, '-');
  }

  /** The sequence is read back from the key of every event. */
  lemma SeqRoundTrip(shard: string, n: nat)
    requires n <= MAX_INT64
    ensures SeqFromKey(KeyOf(shard, n)) == Some(n)
  {
    KeyBase(shard, n);
    HexChars(n, WIDTH);
    Pow16Sixteen();
    ParseHex(n, WIDTH);
    SeqOfDigits(KeyOf(shard, n), Hex(n, WIDTH), n);
  }

  lemma DirOfKey(shard: string, n: int)
    ensures |KeyOf(shard, n)| == |ShardDir(shard)| + 21
    ensures KeyOf(shard, n)[..|ShardDir(shard)|] == ShardDir(shard)
  {
    assert KeyOf(shard, n) == ShardDir(shard) + (Hex(n, WIDTH) + ".json");
  }

  lemma DirInjective(shard: string, shard': string)
    requires ShardDir(shard) == ShardDir(shard')
    ensures shard == shard'
  {
    if shard != "" && shard' != "" {
      assert ShardDir(shard)[13..|ShardDir(shard)| - 1] == shard;
      assert ShardDir(shard')[13..|ShardDir(shard')| - 1] == shard';
    }
  }

  /** Distinct slots have distinct keys, so a race for one slot is a race for one key. */
  lemma KeyInjective(shard: string, n: nat, shard': string, n': nat)
    requires n <= MAX_INT64 && n' <= MAX_INT64 && KeyOf(shard, n) == KeyOf(shard', n')
    ensures shard == shard' && n == n'
  {
    SeqRoundTrip(shard, n);
    SeqRoundTrip(shard', n');
    DirOfKey(shard, n);
    DirOfKey(shard', n');
    DirInjective(shard, shard');
  }

  // ---- anchors ----

  /** A witness of the head of one shard. */
  datatype Anchor = Anchor(schema: string, shard: string, headHash: string, headSequence: int, publisher: string,
                           anchoredAt: int, logId: string)

  // ---- the sort key and link record of verifyShard ----

  function ToUint64(n: int): nat
    requires Int64(n)
  {
    if n < 0 then n + TWO64 else n
  }

  /** x ^ (1 << 63) */
  function FlipTopBit(x: nat): nat
    requires x < TWO64
  {
    if x >= TWO63 then x - TWO63 else x + TWO63
  }

  function SortKey(n: int): seq<byte>
    requires Int64(n)
  {
    BigEndian(FlipTopBit(ToUint64(n)), 8)
  }

  /** The sign-flipped big-endian sort key orders as the signed sequence does. */
  lemma SortKeyOrder(a: int, b: int)
    requires Int64(a) && Int64(b)
    ensures Less(SortKey(a), SortKey(b)) <==> a < b
    ensures SortKey(a) == SortKey(b) <==> a == b
  {
    Pow256Eight();
    BigEndianOrder(FlipTopBit(ToUint64(a)), FlipTopBit(ToUint64(b)), 8);
  }

  function EncodeLink(hash: string, prev: string, id: string): string {
    hash + [NUL] + prev + [NUL] + id
  }

  function After(s: string, c: char): string {
    if s == "" then "" else if s[0] == c then s[1..] else After(s[1..], c)
  }

  /** bytes.SplitN at the first two NULs. */
  function DecodeLink(s: string): (string, string, string) {
    (UpTo(s, NUL), UpTo(After(s, NUL), NUL), After(After(s, NUL), NUL))
  }

  lemma {:induction false} SplitAt(x: string, y: string, c: char)
    requires c !in x
    ensures UpTo(x + [c] + y, c) == x && After(x + [c] + y, c) == y
  {
    if x == "" {
      assert x + [c] + y == [c] + y;
      assert ([c] + y)[1..] == y;
    } else {
      assert (x + [c] + y)[1..] == x[1..] + [c] + y;
      SplitAt(x[1..], y, c);
    }
  }

  lemma {:induction false} UpToPrefix(x: string, y: string, c: char)
    ensures UpTo(x + [c] + y, c) == UpTo(x, c)
  {
    if x == "" {
      assert x + [c] + y == [c] + y;
    } else {
      assert (x + [c] + y)[1..] == x[1..] + [c] + y;
      UpToPrefix(x[1..], y, c);
    }
  }

  lemma {:induction false} UpToPresent(x: string, c: char)
    requires c in x
    ensures UpTo(x, c) != x
  {
    if x[0] != c { UpToPresent(x[1..], c); }
  }

  /** What the link record preserves of an event whose hash is printable. */
  lemma LinkOf(hash: string, prev: string, id: string)
    requires NUL !in hash
    ensures DecodeLink(EncodeLink(hash, prev, id)).0 == hash
    ensures DecodeLink(EncodeLink(hash, prev, id)).1 == UpTo(prev, NUL)
  {
    assert EncodeLink(hash, prev, id) == hash + [NUL] + (prev + [NUL] + id);
    SplitAt(hash, prev + [NUL] + id, NUL);
    UpToPrefix(prev, id, NUL);
  }

  /** The link record is lossless exactly for hashes without NUL. */
  lemma LinkRoundTrip(hash: string, prev: string, id: string)
    requires NUL !in hash
    ensures DecodeLink(EncodeLink(hash, prev, id)) == (hash, prev, id) <==> NUL !in prev
  {
    LinkOf(hash, prev, id);
    assert EncodeLink(hash, prev, id) == hash + [NUL] + (prev + [NUL] + id);
    SplitAt(hash, prev + [NUL] + id, NUL);
    if NUL in prev {
      UpToPresent(prev, NUL);
    } else {
      SplitAt(prev, id, NUL);
    }
  }
}
