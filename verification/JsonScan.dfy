/** Reading a few top-level strings out of a document without materialising the rest. */
module JsonScan {
  import opened Common
  import opened JsonTokens

  /** strings.EqualFold */
  type SameKey = (string, string) -> bool

  /** The first wanted key that matches, or the empty string. */
  function Canon(same: SameKey, key: string, want: seq<string>): string {
    if want == [] then "" else if same(key, want[0]) then want[0] else Canon(same, key, want[1..])
  }

  method FindWanted(same: SameKey, key: string, want: seq<string>) returns (canon: string)
    ensures canon == Canon(same, key, want)
  {
    var i := 0;
    while i < |want|
      invariant 0 <= i <= |want| && Canon(same, key, want) == Canon(same, key, want[i..])
    {
      if same(key, want[i]) {
        return want[i];
      }
      i := i + 1;
    }
    canon := "";
  }

  // ---- what the scan should find ----

  predicate Wanted(same: SameKey, want: seq<string>, key: string) {
    Canon(same, key, want) != ""
  }

  /** Every wanted field holds a string or null. */
  predicate Readable(same: SameKey, want: seq<string>, fs: Fields) {
    match fs
    case NoFields => true
    case Field(key, value, tail) =>
      (Wanted(same, want, key) ==> value.Str? || value.Null?) && Readable(same, want, tail)
  }

  /** The bindings in reading order, a later one replacing an earlier one. */
  function Bind(same: SameKey, want: seq<string>, fs: Fields, out: map<string, string>): map<string, string> {
    match fs
    case NoFields => out
    case Field(key, value, tail) =>
      if Wanted(same, want, key) && value.Str? then
        Bind(same, want, tail, out[Canon(same, key, want) := value.text])
      else Bind(same, want, tail, out)
  }

  /** What a full parse binds to a field named `w`: the last string, nulls leaving it alone. */
  function FullParse(same: SameKey, fs: Fields, w: string): Option<string> {
    match fs
    case NoFields => None
    case Field(key, value, tail) =>
      var later := FullParse(same, tail, w);
      if later.Some? then later
      else if same(key, w) && value.Str? then Some(value.text)
      else None
  }

  /** The wanted names are non-empty and no key matches two of them. */
  ghost predicate Apart(same: SameKey, want: seq<string>) {
    && (forall i :: 0 <= i < |want| ==> want[i] != "")
    && (forall i, j, key :: 0 <= i < j < |want| && same(key, want[i]) ==> !same(key, want[j]))
  }

  lemma {:induction false} CanonIsMatch(same: SameKey, key: string, want: seq<string>, w: string)
    requires Apart(same, want) && w in want
    ensures Canon(same, key, want) == w <==> same(key, w)
  {
    if w == want[0] {
      if !same(key, w) { CanonIsLater(same, key, want[1..], w); }
    } else {
      var j :| 0 <= j < |want| && want[j] == w;
      assert want[1..][j - 1] == w;
      assert same(key, want[0]) ==> !same(key, want[j]);
      CanonIsMatch(same, key, want[1..], w);
    }
  }

  lemma {:induction false} CanonIsLater(same: SameKey, key: string, want: seq<string>, w: string)
    requires !same(key, w) && w != ""
    ensures Canon(same, key, want) != w
  {
    if want != [] { CanonIsLater(same, key, want[1..], w); }
  }

  /** For every wanted name the scan's map holds exactly what the full parse binds. */
  lemma {:induction false} BindIsFullParse(same: SameKey, want: seq<string>, fs: Fields, out: map<string, string>, w: string)
    requires Apart(same, want) && w in want
    ensures var got, full := Bind(same, want, fs, out), FullParse(same, fs, w);
            && (full.Some? ==> w in got && got[w] == full.value)
            && (full.None? ==> (w in got <==> w in out) && (w in out ==> got[w] == out[w]))
  {
    match fs
    case NoFields =>
    case Field(key, value, tail) =>
      CanonIsMatch(same, key, want, w);
      if Wanted(same, want, key) && value.Str? {
        BindIsFullParse(same, want, tail, out[Canon(same, key, want) := value.text], w);
      } else {
        BindIsFullParse(same, want, tail, out, w);
      }
  }

  // ---- the scan ----

  datatype ScanResult = Scanned(out: map<string, string>) | Failed

  /** The decoder stands inside an object, in front of `fs` and its closing brace. */
  predicate InFront(rest: seq<Token>, fs: Fields, after: seq<Token>) {
    rest == FieldTokens(fs) + ([CloseObj] + after)
  }

  lemma FieldInFront(rest: seq<Token>, fs: Fields, after: seq<Token>)
    requires InFront(rest, fs, after) && rest != []
    ensures fs.NoFields? ==> rest[0] == CloseObj && rest[1..] == after
    ensures fs.Field? ==>
              && rest[0] == TStr(fs.key)
              && rest[1..] == Tokens(fs.value) + (FieldTokens(fs.tail) + ([CloseObj] + after))
  {
    match fs
    case NoFields => assert rest == [CloseObj] + after;
    case Field(key, value, tail) =>
      assert rest == [TStr(key)] + (Tokens(value) + (FieldTokens(tail) + ([CloseObj] + after)));
  }

  lemma ScalarInFront(v: Json, ts: seq<Token>)
    ensures (Tokens(v) + ts)[0] == Tokens(v)[0]
    ensures v.Str? || v.Null? || v.Scalar? ==> (Tokens(v) + ts)[1..] == ts
    ensures Tokens(v)[0].TStr? <==> v.Str?
    ensures Tokens(v)[0].TNull? <==> v.Null?
    ensures v.Str? ==> Tokens(v)[0].text == v.text
  {
  }

  /** How one field is handled: skipped, bound, or refused. */
  method ScanField(d: Decoder, same: SameKey, want: seq<string>, out: map<string, string>, ghost doc: Option<Fields>,
                   ghost after: seq<Token>) returns (out': Option<map<string, string>>)
    requires d.rest != []
    requires doc.Some? ==> doc.value.Field? && InFront(d.rest, doc.value, after)
    modifies d
    ensures out'.Some? ==> |d.rest| < |old(d.rest)|
    ensures doc.Some? ==>
              var fs := doc.value;
              && (out'.None? <==> Wanted(same, want, fs.key) && !fs.value.Str? && !fs.value.Null?)
              && (out'.Some? ==>
                    && InFront(d.rest, fs.tail, after)
                    && Bind(same, want, fs.tail, out'.value) == Bind(same, want, fs, out))
  {
    if doc.Some? {
      FieldInFront(d.rest, doc.value, after);
      SkipIsExact(doc.value.value, FieldTokens(doc.value.tail) + ([CloseObj] + after));
      ScalarInFront(doc.value.value, FieldTokens(doc.value.tail) + ([CloseObj] + after));
    }
    var kt := d.Next();
    if kt.None? {
      return None;
    }
    var key := if kt.value.TStr? then kt.value.text else "";
    var canon := FindWanted(same, key, want);
    if canon == "" {
      var ok := SkipValue(d);
      return if ok then Some(out) else None;
    }
    var vt := d.Next();
    if vt.None? || (!vt.value.TStr? && !vt.value.TNull?) {
      return None;
    }
    out' := Some(if vt.value.TStr? then out[canon := vt.value.text] else out);
  }

  /** scanTopLevelStrings; `doc` is the object that the decoder stands in front of, if it is one. */
  method ScanTopLevel(d: Decoder, same: SameKey, want: seq<string>, ghost doc: Option<Fields>, ghost after: seq<Token>)
    returns (r: ScanResult)
    requires doc.Some? ==> d.rest == Tokens(Obj(doc.value)) + after
    modifies d
    ensures doc.Some? ==>
              && (r.Failed? <==> !Readable(same, want, doc.value))
              && (r.Scanned? ==> r.out == Bind(same, want, doc.value, map[]) && d.rest == after)
  {
    if doc.Some? { assert d.rest == [OpenObj] + (FieldTokens(doc.value) + ([CloseObj] + after)); }
    var t := d.Next();
    if t.None? || !t.value.OpenObj? {
      return Failed;
    }
    var out: map<string, string> := map[];
    ghost var fs := doc;
    while d.More()
      invariant doc.Some? <==> fs.Some?
      invariant doc.Some? ==>
                  && InFront(d.rest, fs.value, after)
                  && Bind(same, want, fs.value, out) == Bind(same, want, doc.value, map[])
                  && (Readable(same, want, fs.value) <==> Readable(same, want, doc.value))
      decreases |d.rest|
    {
      if fs.Some? { FieldInFront(d.rest, fs.value, after); }
      var next := ScanField(d, same, want, out, fs, after);
      if next.None? {
        return Failed;
      }
      out := next.value;
      if fs.Some? { fs := Some(fs.value.tail); }
    }
    if fs.Some? { FieldInFront(d.rest, fs.value, after); }
    t := d.Next();
    if t.None? {
      return Failed;
    }
    r := Scanned(out);
  }
}
