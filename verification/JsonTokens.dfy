/** JSON documents, their token streams, and a decoder that is consumed token by token. */
module JsonTokens {
  import opened Common

  datatype Json =
    | Null
    | Scalar(text: string)  // a number or a boolean
    | Str(text: string)
    | Arr(items: Items)
    | Obj(fields: Fields)

  datatype Items = NoItems | Item(head: Json, tail: Items)

  datatype Fields = NoFields | Field(key: string, value: Json, tail: Fields)

  /** `Broken` stands where the text stops being JSON. */
  datatype Token = OpenObj | CloseObj | OpenArr | CloseArr | TNull | TScalar(text: string) | TStr(text: string) | Broken

  function Tokens(v: Json): (ts: seq<Token>)
    ensures ts != [] && !ts[0].CloseObj? && !ts[0].CloseArr? && !ts[0].Broken?
  {
    match v
    case Null => [TNull]
    case Scalar(text) => [TScalar(text)]
    case Str(text) => [TStr(text)]
    case Arr(items) => [OpenArr] + ItemTokens(items) + [CloseArr]
    case Obj(fields) => [OpenObj] + FieldTokens(fields) + [CloseObj]
  }

  function ItemTokens(xs: Items): seq<Token> {
    match xs
    case NoItems => []
    case Item(head, tail) => Tokens(head) + ItemTokens(tail)
  }

  function FieldTokens(fs: Fields): seq<Token> {
    match fs
    case NoFields => []
    case Field(key, value, tail) => [TStr(key)] + Tokens(value) + FieldTokens(tail)
  }

  class Decoder {
    var rest: seq<Token>

    constructor (tokens: seq<Token>)
      ensures rest == tokens
    {
      rest := tokens;
    }

    /** Whether the current array or object has another element; stays true in front of broken text. */
    predicate More()
      reads this
    {
      rest != [] && !rest[0].CloseObj? && !rest[0].CloseArr?
    }

    /** The next token; at the end, and in front of broken text, an error that consumes nothing. */
    method Next() returns (t: Option<Token>)
      modifies this
      ensures t.None? <==> old(rest) == [] || old(rest)[0].Broken?
      ensures t.None? ==> rest == old(rest)
      ensures t.Some? ==> t.value == old(rest)[0] && rest == old(rest)[1..]
    {
      if rest == [] || rest[0].Broken? {
        return None;
      }
      t := Some(rest[0]);
      rest := rest[1..];
    }
  }

  // ---- skipping ----

  function Depth(depth: int, t: Token): int {
    if t.OpenObj? || t.OpenArr? then depth + 1
    else if t.CloseObj? || t.CloseArr? then depth - 1
    else depth
  }

  /** What is left when `depth` open brackets have been closed. */
  function Unwind(ts: seq<Token>, depth: int): Option<seq<Token>> {
    if depth <= 0 then Some(ts)
    else if ts == [] || ts[0].Broken? then None
    else Unwind(ts[1..], Depth(depth, ts[0]))
  }

  lemma {:induction false} UnwindFirst(t: Token, ts: seq<Token>, depth: int)
    requires depth > 0 && !t.Broken?
    ensures Unwind([t] + ts, depth) == Unwind(ts, Depth(depth, t))
  {
    assert ([t] + ts)[1..] == ts;
  }

  /** At any depth a whole value is passed over. */
  lemma {:induction false} UnwindValue(v: Json, ts: seq<Token>, depth: int)
    requires depth > 0
    ensures Unwind(Tokens(v) + ts, depth) == Unwind(ts, depth)
  {
    match v
    case Null => UnwindFirst(TNull, ts, depth);
    case Scalar(text) => UnwindFirst(TScalar(text), ts, depth);
    case Str(text) => UnwindFirst(TStr(text), ts, depth);
    case Arr(items) =>
      assert Tokens(v) + ts == [OpenArr] + (ItemTokens(items) + ([CloseArr] + ts));
      UnwindFirst(OpenArr, ItemTokens(items) + ([CloseArr] + ts), depth);
      UnwindItems(items, [CloseArr] + ts, depth + 1);
      UnwindFirst(CloseArr, ts, depth + 1);
    case Obj(fields) =>
      assert Tokens(v) + ts == [OpenObj] + (FieldTokens(fields) + ([CloseObj] + ts));
      UnwindFirst(OpenObj, FieldTokens(fields) + ([CloseObj] + ts), depth);
      UnwindFields(fields, [CloseObj] + ts, depth + 1);
      UnwindFirst(CloseObj, ts, depth + 1);
  }

  lemma {:induction false} UnwindItems(xs: Items, ts: seq<Token>, depth: int)
    requires depth > 0
    ensures Unwind(ItemTokens(xs) + ts, depth) == Unwind(ts, depth)
  {
    match xs
    case NoItems => assert ItemTokens(xs) + ts == ts;
    case Item(head, tail) =>
      assert ItemTokens(xs) + ts == Tokens(head) + (ItemTokens(tail) + ts);
      UnwindValue(head, ItemTokens(tail) + ts, depth);
      UnwindItems(tail, ts, depth);
  }

  lemma {:induction false} UnwindFields(fs: Fields, ts: seq<Token>, depth: int)
    requires depth > 0
    ensures Unwind(FieldTokens(fs) + ts, depth) == Unwind(ts, depth)
  {
    match fs
    case NoFields => assert FieldTokens(fs) + ts == ts;
    case Field(key, value, tail) =>
      assert FieldTokens(fs) + ts == [TStr(key)] + (Tokens(value) + (FieldTokens(tail) + ts));
      UnwindFirst(TStr(key), Tokens(value) + (FieldTokens(tail) + ts), depth);
      UnwindValue(value, FieldTokens(tail) + ts, depth);
      UnwindFields(tail, ts, depth);
  }

  /** What skipJSONValue leaves of a token stream, if it gets through. */
  function Skipped(ts: seq<Token>): Option<seq<Token>> {
    if ts == [] || ts[0].Broken? then None
    else Unwind(ts[1..], if ts[0].OpenObj? || ts[0].OpenArr? then 1 else 0)
  }

  /** skipJSONValue */
  method SkipValue(d: Decoder) returns (ok: bool)
    modifies d
    ensures ok <==> Skipped(old(d.rest)).Some?
    ensures ok ==> d.rest == Skipped(old(d.rest)).value
    ensures |d.rest| <= |old(d.rest)| && (ok ==> |d.rest| < |old(d.rest)|)
  {
    var t := d.Next();
    if t.None? {
      return false;
    }
    if !t.value.OpenObj? && !t.value.OpenArr? {
      return true;
    }
    var depth := 1;
    while depth > 0
      invariant depth >= 0 && |d.rest| < |old(d.rest)|
      invariant Unwind(d.rest, depth) == Skipped(old(d.rest))
      decreases |d.rest|, depth
    {
      t := d.Next();
      if t.None? {
        return false;
      }
      if t.value.OpenObj? || t.value.OpenArr? {
        depth := depth + 1;
      } else if t.value.CloseObj? || t.value.CloseArr? {
        depth := depth - 1;
      }
    }
    ok := true;
  }

  /** Skipping is exact: whatever the value and whatever follows, precisely that value is consumed. */
  lemma {:induction false} SkipIsExact(v: Json, ts: seq<Token>)
    ensures Skipped(Tokens(v) + ts) == Some(ts)
  {
    match v
    case Arr(items) =>
      assert (Tokens(v) + ts)[1..] == ItemTokens(items) + ([CloseArr] + ts);
      UnwindItems(items, [CloseArr] + ts, 1);
      UnwindFirst(CloseArr, ts, 1);
    case Obj(fields) =>
      assert (Tokens(v) + ts)[1..] == FieldTokens(fields) + ([CloseObj] + ts);
      UnwindFields(fields, [CloseObj] + ts, 1);
      UnwindFirst(CloseObj, ts, 1);
    case _ =>
      assert (Tokens(v) + ts)[1..] == ts;
  }
}
