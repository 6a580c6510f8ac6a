/** Rejection of documents that two readers could understand differently. */
module JsonKeys {
  import opened Common
  import opened JsonTokens
  import opened JsonScan

  /** The smallest rune of each Unicode simple-fold orbit, for runes outside ASCII. */
  type FoldOrbit = char -> char

  predicate SchemaChar(c: char) {
    'a' <= c <= 'z' || '0' <= c <= '9' || c == '_'
  }

  predicate IsSchemaKey(key: string) {
    key != "" && forall i :: 0 <= i < |key| ==> SchemaChar(key[i])
  }

  /** isSchemaKey */
  method CheckSchemaKey(key: string) returns (ok: bool)
    ensures ok <==> IsSchemaKey(key)
    ensures ok <==> key != "" && forall i :: 0 <= i < |key| ==> 'a' <= key[i] <= 'z' || '0' <= key[i] <= '9' || key[i] == '_'
  {
    if key == "" {
      return false;
    }
    var i := 0;
    while i < |key|
      invariant 0 <= i <= |key| && forall j :: 0 <= j < i ==> SchemaChar(key[j])
    {
      var c := key[i];
      if (c < 'a' || c > 'z') && (c < '0' || c > '9') && c != '_' {
        return false;
      }
      i := i + 1;
    }
    ok := true;
  }

  function FoldChar(orbit: FoldOrbit, c: char): char {
    if c < '\U{80}' then if 'a' <= c <= 'z' then c - ('a' - 'A') else c else orbit(c)
  }

  /** jsonFoldKey */
  function Fold(orbit: FoldOrbit, key: string): (r: string)
    ensures |r| == |key| && forall i :: 0 <= i < |key| ==> r[i] == FoldChar(orbit, key[i])
  {
    if key == "" then "" else [FoldChar(orbit, key[0])] + Fold(orbit, key[1..])
  }

  lemma FoldCharInjective(orbit: FoldOrbit, c: char, d: char)
    requires SchemaChar(c) && SchemaChar(d) && FoldChar(orbit, c) == FoldChar(orbit, d)
    ensures c == d
  {
  }

  /** Folding never identifies two different schema keys. */
  lemma FoldInjective(orbit: FoldOrbit, a: string, b: string)
    requires IsSchemaKey(a) && IsSchemaKey(b) && Fold(orbit, a) == Fold(orbit, b)
    ensures a == b
  {
    forall i | 0 <= i < |a|
      ensures a[i] == b[i]
    {
      assert Fold(orbit, a)[i] == Fold(orbit, b)[i];
      FoldCharInjective(orbit, a[i], b[i]);
    }
  }

  /** Letters that differ in case only, within ASCII. */
  predicate SameLetter(c: char, d: char) {
    c == d || ('a' <= c <= 'z' && c as int == d as int + 32) || ('a' <= d <= 'z' && d as int == c as int + 32)
  }

  lemma AsciiFoldChar(orbit: FoldOrbit, c: char, d: char)
    requires c < '\U{80}' && d < '\U{80}'
    ensures FoldChar(orbit, c) == FoldChar(orbit, d) <==> SameLetter(c, d)
  {
  }

  /** Within ASCII two keys fold together exactly when they differ in case only. */
  lemma AsciiFold(orbit: FoldOrbit, a: string, b: string)
    requires (forall i :: 0 <= i < |a| ==> a[i] < '\U{80}') && (forall i :: 0 <= i < |b| ==> b[i] < '\U{80}')
    ensures Fold(orbit, a) == Fold(orbit, b) <==> |a| == |b| && forall i :: 0 <= i < |a| ==> SameLetter(a[i], b[i])
  {
    var fa, fb := Fold(orbit, a), Fold(orbit, b);
    if |a| == |b| {
      forall i | 0 <= i < |a|
        ensures fa[i] == fb[i] <==> SameLetter(a[i], b[i])
      {
        AsciiFoldChar(orbit, a[i], b[i]);
      }
      if fa == fb {
        assert forall i :: 0 <= i < |a| ==> fa[i] == fb[i];
      }
    }
  }

  // ---- unambiguous documents ----

  /** At every depth the keys are schema keys and no two of one object fold together. */
  predicate Unambiguous(orbit: FoldOrbit, v: Json) {
    match v
    case Arr(items) => ItemsUnambiguous(orbit, items)
    case Obj(fields) => FieldsUnambiguous(orbit, fields, {})
    case _ => true
  }

  predicate ItemsUnambiguous(orbit: FoldOrbit, xs: Items) {
    match xs
    case NoItems => true
    case Item(head, tail) => Unambiguous(orbit, head) && ItemsUnambiguous(orbit, tail)
  }

  predicate FieldsUnambiguous(orbit: FoldOrbit, fs: Fields, seen: set<string>) {
    match fs
    case NoFields => true
    case Field(key, value, tail) =>
      && IsSchemaKey(key) && Fold(orbit, key) !in seen && Unambiguous(orbit, value)
      && FieldsUnambiguous(orbit, tail, seen + {Fold(orbit, key)})
  }

  // ---- the walk ----

  datatype Verdict = Fine | Malformed | Ambiguous

  /** The decoder stands inside an array, in front of `xs` and its closing bracket. */
  predicate InFrontOfItems(rest: seq<Token>, xs: Items, after: seq<Token>) {
    rest == ItemTokens(xs) + ([CloseArr] + after)
  }

  lemma ItemInFront(rest: seq<Token>, xs: Items, after: seq<Token>)
    requires InFrontOfItems(rest, xs, after)
    ensures rest != [] && (xs.NoItems? <==> rest[0].CloseArr? || rest[0].CloseObj?)
    ensures xs.NoItems? ==> rest[0] == CloseArr && rest[1..] == after
    ensures xs.Item? ==> rest == Tokens(xs.head) + (ItemTokens(xs.tail) + ([CloseArr] + after))
  {
    match xs
    case NoItems => assert rest == [CloseArr] + after;
    case Item(head, tail) => assert rest == Tokens(head) + (ItemTokens(tail) + ([CloseArr] + after));
  }

  /** checkNoDupKeys: one value is consumed.  It ends on every token stream, and on a well-formed value, given as
      `doc`, it finds exactly the unambiguous ones fine. */
  method CheckValue(d: Decoder, orbit: FoldOrbit, ghost doc: Option<Json>, ghost after: seq<Token>)
    returns (r: Verdict)
    requires doc.Some? ==> d.rest == Tokens(doc.value) + after
    modifies d
    ensures |d.rest| <= |old(d.rest)| && (r.Fine? ==> |d.rest| < |old(d.rest)|)
    ensures doc.Some? ==>
              && (r.Fine? <==> Unambiguous(orbit, doc.value)) && !r.Malformed?
              && (r.Fine? ==> d.rest == after)
    decreases |d.rest|, 1
  {
    if doc.Some? { ValueInFront(doc.value, after); }
    var t := d.Next();
    if t.None? {
      return Malformed;
    }
    match t.value
    case OpenObj =>
      r := CheckFields(d, orbit, if doc.Some? then Some(doc.value.fields) else None, after);
    case OpenArr =>
      r := CheckItems(d, orbit, if doc.Some? then Some(doc.value.items) else None, after);
    case _ =>
      r := Fine;
  }

  lemma ValueInFront(v: Json, after: seq<Token>)
    ensures var rest := Tokens(v) + after;
            && (rest[0].OpenObj? <==> v.Obj?) && (rest[0].OpenArr? <==> v.Arr?) && !rest[0].Broken?
            && (v.Obj? ==> InFront(rest[1..], v.fields, after))
            && (v.Arr? ==> InFrontOfItems(rest[1..], v.items, after))
            && (!v.Obj? && !v.Arr? ==> rest[1..] == after)
  {
    match v
    case Obj(fields) => assert Tokens(v) + after == [OpenObj] + (FieldTokens(fields) + ([CloseObj] + after));
    case Arr(items) => assert Tokens(v) + after == [OpenArr] + (ItemTokens(items) + ([CloseArr] + after));
    case _ =>
  }

  /** The loop over the members of an object, with the folded keys seen so far. */
  method CheckFields(d: Decoder, orbit: FoldOrbit, ghost doc: Option<Fields>, ghost after: seq<Token>)
    returns (r: Verdict)
    requires doc.Some? ==> InFront(d.rest, doc.value, after)
    modifies d
    ensures |d.rest| <= |old(d.rest)|
    ensures doc.Some? ==>
              && (r.Fine? <==> FieldsUnambiguous(orbit, doc.value, {})) && !r.Malformed?
              && (r.Fine? ==> d.rest == after)
    decreases |d.rest|, 2
  {
    var seen: map<string, string> := map[];
    ghost var fs, folds := doc, {};
    while d.More()
      invariant |d.rest| <= |old(d.rest)| && (doc.Some? <==> fs.Some?) && folds == seen.Keys
      invariant doc.Some? ==>
                  && InFront(d.rest, fs.value, after)
                  && (FieldsUnambiguous(orbit, fs.value, folds) <==> FieldsUnambiguous(orbit, doc.value, {}))
      decreases |d.rest|
    {
      if fs.Some? { FieldInFront(d.rest, fs.value, after); }
      var kt := d.Next();
      if kt.None? || !kt.value.TStr? {
        return Malformed;
      }
      var key := kt.value.text;
      var plain := CheckSchemaKey(key);
      if !plain {
        return Ambiguous;
      }
      var folded := Fold(orbit, key);
      if folded in seen {
        return Ambiguous;
      }
      seen, folds := seen[folded := key], folds + {folded};
      ghost var behind := if fs.Some? then FieldTokens(fs.value.tail) + ([CloseObj] + after) else [];
      r := CheckValue(d, orbit, if fs.Some? then Some(fs.value.value) else None, behind);
      if !r.Fine? {
        return r;
      }
      if fs.Some? { fs := Some(fs.value.tail); }
    }
    if fs.Some? { FieldInFront(d.rest, fs.value, after); }
    var _ := d.Next();
    r := Fine;
  }

  /** The loop over the elements of an array. */
  method CheckItems(d: Decoder, orbit: FoldOrbit, ghost doc: Option<Items>, ghost after: seq<Token>)
    returns (r: Verdict)
    requires doc.Some? ==> InFrontOfItems(d.rest, doc.value, after)
    modifies d
    ensures |d.rest| <= |old(d.rest)|
    ensures doc.Some? ==>
              && (r.Fine? <==> ItemsUnambiguous(orbit, doc.value)) && !r.Malformed?
              && (r.Fine? ==> d.rest == after)
    decreases |d.rest|, 2
  {
    ghost var xs := doc;
    while d.More()
      invariant |d.rest| <= |old(d.rest)| && (doc.Some? <==> xs.Some?)
      invariant doc.Some? ==>
                  && InFrontOfItems(d.rest, xs.value, after)
                  && (ItemsUnambiguous(orbit, xs.value) <==> ItemsUnambiguous(orbit, doc.value))
      decreases |d.rest|
    {
      if xs.Some? { ItemInFront(d.rest, xs.value, after); }
      ghost var behind := if xs.Some? then ItemTokens(xs.value.tail) + ([CloseArr] + after) else [];
      r := CheckValue(d, orbit, if xs.Some? then Some(xs.value.head) else None, behind);
      if !r.Fine? {
        return r;
      }
      if xs.Some? { xs := Some(xs.value.tail); }
    }
    if xs.Some? { ItemInFront(d.rest, xs.value, after); }
    var _ := d.Next();
    r := Fine;
  }

  /** rejectDuplicateKeys: malformed text is left to the parser. */
  method RejectDuplicateKeys(tokens: seq<Token>, orbit: FoldOrbit, ghost doc: Option<Json>, ghost after: seq<Token>)
    returns (accepted: bool)
    requires doc.Some? ==> tokens == Tokens(doc.value) + after
    ensures doc.Some? ==> (accepted <==> Unambiguous(orbit, doc.value))
  {
    var d := new Decoder(tokens);
    var r := CheckValue(d, orbit, doc, after);
    accepted := !r.Ambiguous?;
  }

  // ---- one meaning ----

  datatype Place = Key(name: string) | Index(i: nat)

  function NthItem(xs: Items, i: nat): Option<Json> {
    match xs
    case NoItems => None
    case Item(head, tail) => if i == 0 then Some(head) else NthItem(tail, i - 1)
  }

  /** A reader that compares names exactly and takes the first occurrence. */
  function FirstExact(fs: Fields, name: string): Option<Json> {
    match fs
    case NoFields => None
    case Field(key, value, tail) => if key == name then Some(value) else FirstExact(tail, name)
  }

  /** A reader that compares folded names and takes the last occurrence, as encoding/json does. */
  function LastFolded(orbit: FoldOrbit, fs: Fields, name: string): Option<Json> {
    match fs
    case NoFields => None
    case Field(key, value, tail) =>
      var later := LastFolded(orbit, tail, name);
      if later.Some? then later else if Fold(orbit, key) == Fold(orbit, name) then Some(value) else None
  }

  function ReadFirst(v: Json, path: seq<Place>): Option<Json>
    decreases |path|
  {
    if path == [] then Some(v)
    else
      var next := match path[0]
        case Key(name) => if v.Obj? then FirstExact(v.fields, name) else None
        case Index(i) => if v.Arr? then NthItem(v.items, i) else None;
      if next.None? then None else ReadFirst(next.value, path[1..])
  }

  function ReadLast(orbit: FoldOrbit, v: Json, path: seq<Place>): Option<Json>
    decreases |path|
  {
    if path == [] then Some(v)
    else
      var next := match path[0]
        case Key(name) => if v.Obj? then LastFolded(orbit, v.fields, name) else None
        case Index(i) => if v.Arr? then NthItem(v.items, i) else None;
      if next.None? then None else ReadLast(orbit, next.value, path[1..])
  }

  /** A path whose names are names the schema could have. */
  predicate SchemaPath(path: seq<Place>) {
    forall i :: 0 <= i < |path| && path[i].Key? ==> IsSchemaKey(path[i].name)
  }

  lemma {:induction false} SeenIsAbsent(orbit: FoldOrbit, fs: Fields, seen: set<string>, name: string)
    requires FieldsUnambiguous(orbit, fs, seen) && Fold(orbit, name) in seen
    ensures LastFolded(orbit, fs, name) == None
  {
    match fs
    case NoFields =>
    case Field(key, value, tail) => SeenIsAbsent(orbit, tail, seen + {Fold(orbit, key)}, name);
  }

  /** Within one object both readers find the same value. */
  lemma {:induction false} OneBinding(orbit: FoldOrbit, fs: Fields, seen: set<string>, name: string)
    requires FieldsUnambiguous(orbit, fs, seen) && IsSchemaKey(name)
    ensures FirstExact(fs, name) == LastFolded(orbit, fs, name)
    ensures FirstExact(fs, name).Some? ==> Unambiguous(orbit, FirstExact(fs, name).value)
  {
    match fs
    case NoFields =>
    case Field(key, value, tail) =>
      var seen' := seen + {Fold(orbit, key)};
      if key == name {
        SeenIsAbsent(orbit, tail, seen', name);
      } else {
        if Fold(orbit, key) == Fold(orbit, name) { FoldInjective(orbit, key, name); }
        OneBinding(orbit, tail, seen', name);
      }
  }

  lemma {:induction false} ItemStaysUnambiguous(orbit: FoldOrbit, xs: Items, i: nat)
    requires ItemsUnambiguous(orbit, xs)
    ensures NthItem(xs, i).Some? ==> Unambiguous(orbit, NthItem(xs, i).value)
  {
    if xs.Item? && i > 0 { ItemStaysUnambiguous(orbit, xs.tail, i - 1); }
  }

  /** One meaning: along every path of schema names, at any depth, a first-wins exact reader and a last-wins folding
      reader of an accepted document see the same value. */
  lemma {:induction false} OneMeaning(orbit: FoldOrbit, v: Json, path: seq<Place>)
    requires Unambiguous(orbit, v) && SchemaPath(path)
    ensures ReadFirst(v, path) == ReadLast(orbit, v, path)
    decreases |path|
  {
    if path != [] {
      match path[0]
      case Key(name) =>
        if v.Obj? {
          OneBinding(orbit, v.fields, {}, name);
          var next := FirstExact(v.fields, name);
          if next.Some? { OneMeaning(orbit, next.value, path[1..]); }
        }
      case Index(i) =>
        if v.Arr? {
          ItemStaysUnambiguous(orbit, v.items, i);
          var next := NthItem(v.items, i);
          if next.Some? { OneMeaning(orbit, next.value, path[1..]); }
        }
    }
  }

  /** Why a lone disguised key is refused as well: folding binds it, exact matching does not. */
  lemma DisguisedKeyHasTwoMeanings(orbit: FoldOrbit, key: string, name: string, value: Json)
    requires key != name && Fold(orbit, key) == Fold(orbit, name)
    ensures var v := Obj(Field(key, value, NoFields));
            ReadFirst(v, [Key(name)]) == None && ReadLast(orbit, v, [Key(name)]) == Some(value)
  {
    var v, path := Obj(Field(key, value, NoFields)), [Key(name)];
    assert path[0] == Key(name) && path[1..] == [];
    assert FirstExact(NoFields, name) == None && LastFolded(orbit, NoFields, name) == None;
    assert FirstExact(v.fields, name) == None;
    assert LastFolded(orbit, v.fields, name) == Some(value);
    assert ReadLast(orbit, value, path[1..]) == Some(value);
  }
}
