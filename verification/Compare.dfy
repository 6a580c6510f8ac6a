/** The comparison of two backups: a merge-join of their files and a one-pass count of their chunks. */
module Compare {
  import opened Common
  import opened Sorting
  import opened TopDeltas

  /** What identifies a file's bytes: its size and the digest of its chunk list. */
  datatype Sig = Sig(size: int, digest: string)

  datatype Rec = Rec(path: string, sig: Sig)

  /** A sorter's output: ascending paths, records of one path in any order. */
  predicate InPathOrder(xs: seq<Rec>) {
    forall i, j :: 0 <= i < j < |xs| ==> !StringLess(xs[j].path, xs[i].path)
  }

  function Paths(xs: seq<Rec>): (ps: seq<string>)
    ensures |ps| == |xs| && forall i :: 0 <= i < |xs| ==> ps[i] == xs[i].path
  {
    if xs == [] then [] else [xs[0].path] + Paths(xs[1..])
  }

  /** The paths of one side, with multiplicity. */
  function PathBag(xs: seq<Rec>): multiset<string> {
    multiset(Paths(xs))
  }

  // ---- the merge-join, as a function ----

  datatype Case = OnlyA | OnlyB | Both

  function CaseOf(xs: seq<Rec>, ys: seq<Rec>): Case
    requires xs != [] || ys != []
  {
    if ys == [] || (xs != [] && StringLess(xs[0].path, ys[0].path)) then OnlyA
    else if xs == [] || StringLess(ys[0].path, xs[0].path) then OnlyB
    else Both
  }

  lemma {:induction false} CaseMeans(xs: seq<Rec>, ys: seq<Rec>)
    requires InPathOrder(xs) && InPathOrder(ys) && (xs != [] || ys != [])
    ensures CaseOf(xs, ys).OnlyA? ==> xs != [] && forall y :: y in ys ==> y.path != xs[0].path
    ensures CaseOf(xs, ys).OnlyB? ==> ys != [] && forall x :: x in xs ==> x.path != ys[0].path
    ensures CaseOf(xs, ys).Both? ==> xs != [] && ys != [] && xs[0].path == ys[0].path
  {
    if xs != [] && ys != [] {
      StringTotal(xs[0].path, ys[0].path);
      if StringLess(xs[0].path, ys[0].path) {
        forall y | y in ys
          ensures y.path != xs[0].path
        {
          StringTotal(xs[0].path, xs[0].path);
        }
      }
    }
  }

  function RemovedFile(x: Rec): FileDelta {
    FileDelta(x.path, x.sig.size, 0, -x.sig.size, Removed)
  }

  function AddedFile(y: Rec): FileDelta {
    FileDelta(y.path, 0, y.sig.size, y.sig.size, Added)
  }

  function ChangedFile(x: Rec, y: Rec): FileDelta {
    FileDelta(x.path, x.sig.size, y.sig.size, y.sig.size - x.sig.size, Changed)
  }

  /** Every delta the join meets, in path order. */
  function Deltas(xs: seq<Rec>, ys: seq<Rec>): seq<FileDelta>
    decreases |xs| + |ys|
  {
    if xs == [] && ys == [] then []
    else match CaseOf(xs, ys)
      case OnlyA => [RemovedFile(xs[0])] + Deltas(xs[1..], ys)
      case OnlyB => [AddedFile(ys[0])] + Deltas(xs, ys[1..])
      case Both =>
        var rest := Deltas(xs[1..], ys[1..]);
        if xs[0].sig != ys[0].sig then [ChangedFile(xs[0], ys[0])] + rest else rest
  }

  /** The files that the join finds on both sides with equal bytes. */
  function Unchanged(xs: seq<Rec>, ys: seq<Rec>): seq<Rec>
    decreases |xs| + |ys|
  {
    if xs == [] && ys == [] then []
    else match CaseOf(xs, ys)
      case OnlyA => Unchanged(xs[1..], ys)
      case OnlyB => Unchanged(xs, ys[1..])
      case Both =>
        var rest := Unchanged(xs[1..], ys[1..]);
        if xs[0].sig == ys[0].sig then [xs[0]] + rest else rest
  }

  function Sizes(xs: seq<Rec>): int {
    if xs == [] then 0 else Sizes(Front(xs)) + Last(xs).sig.size
  }

  // ---- counting ----

  lemma {:induction false} BagAfterFirst(xs: seq<Rec>)
    requires xs != []
    ensures PathBag(xs) == multiset{xs[0].path} + PathBag(xs[1..])
  {
    assert Paths(xs) == [xs[0].path] + Paths(xs[1..]);
  }

  lemma {:induction false} NotInBag(xs: seq<Rec>, p: string)
    requires forall x :: x in xs ==> x.path != p
    ensures p !in PathBag(xs)
  {
    assert forall i :: 0 <= i < |xs| ==> Paths(xs)[i] == xs[i].path && xs[i] in xs;
  }

  lemma OneSided(p: string, a: multiset<string>, b: multiset<string>)
    requires p !in b
    ensures |(multiset{p} + a) - b| == 1 + |a - b|
    ensures |b - (multiset{p} + a)| == |b - a|
    ensures |(multiset{p} + a) * b| == |a * b|
  {
    assert (multiset{p} + a) - b == multiset{p} + (a - b);
    assert b - (multiset{p} + a) == b - a;
    assert (multiset{p} + a) * b == a * b;
  }

  lemma BothSided(p: string, a: multiset<string>, b: multiset<string>)
    ensures |(multiset{p} + a) - (multiset{p} + b)| == |a - b|
    ensures |(multiset{p} + a) * (multiset{p} + b)| == 1 + |a * b|
  {
    assert (multiset{p} + a) - (multiset{p} + b) == a - b;
    assert (multiset{p} + a) * (multiset{p} + b) == multiset{p} + (a * b);
  }

  datatype FileCounts = FileCounts(onlyInA: nat, onlyInB: nat, inBoth: nat, changed: nat)

  /** The sizes of the differences and of the intersection of two sides. */
  function Totals(xs: seq<Rec>, ys: seq<Rec>): FileCounts {
    FileCounts(|PathBag(xs) - PathBag(ys)|, |PathBag(ys) - PathBag(xs)|, |PathBag(xs) * PathBag(ys)|, 0)
  }

  lemma BagSymmetric(a: multiset<string>, b: multiset<string>)
    ensures a * b == b * a
  {
  }

  lemma {:induction false} TotalsOnlyA(xs: seq<Rec>, ys: seq<Rec>)
    requires InPathOrder(xs) && InPathOrder(ys) && (xs != [] || ys != []) && CaseOf(xs, ys).OnlyA?
    ensures xs != []
    ensures var rest := Totals(xs[1..], ys); Totals(xs, ys) == rest.(onlyInA := rest.onlyInA + 1)
  {
    CaseMeans(xs, ys);
    BagAfterFirst(xs);
    NotInBag(ys, xs[0].path);
    OneSided(xs[0].path, PathBag(xs[1..]), PathBag(ys));
  }

  lemma {:induction false} TotalsOnlyB(xs: seq<Rec>, ys: seq<Rec>)
    requires InPathOrder(xs) && InPathOrder(ys) && (xs != [] || ys != []) && CaseOf(xs, ys).OnlyB?
    ensures ys != []
    ensures var rest := Totals(xs, ys[1..]); Totals(xs, ys) == rest.(onlyInB := rest.onlyInB + 1)
  {
    CaseMeans(xs, ys);
    BagAfterFirst(ys);
    NotInBag(xs, ys[0].path);
    OneSided(ys[0].path, PathBag(ys[1..]), PathBag(xs));
    BagSymmetric(PathBag(xs), PathBag(ys));
    BagSymmetric(PathBag(xs), PathBag(ys[1..]));
  }

  lemma {:induction false} TotalsBoth(xs: seq<Rec>, ys: seq<Rec>)
    requires InPathOrder(xs) && InPathOrder(ys) && (xs != [] || ys != []) && CaseOf(xs, ys).Both?
    ensures xs != [] && ys != []
    ensures var rest := Totals(xs[1..], ys[1..]); Totals(xs, ys) == rest.(inBoth := rest.inBoth + 1)
  {
    CaseMeans(xs, ys);
    BagAfterFirst(xs);
    BagAfterFirst(ys);
    BothSided(xs[0].path, PathBag(xs[1..]), PathBag(ys[1..]));
    BothSided(xs[0].path, PathBag(ys[1..]), PathBag(xs[1..]));
  }

  // ---- the merge-join, as the code runs it ----

  /** What the join still has to produce from two positions: counts, deltas and unchanged files. */
  datatype Rest = Rest(counts: FileCounts, deltas: seq<FileDelta>, same: seq<Rec>)

  /** What the join has produced so far. */
  datatype Done = Done(counts: FileCounts, shared: int, seen: seq<FileDelta>, same: seq<Rec>)

  /** What is done together with the rest makes up the whole. */
  ghost predicate Progress(d: Done, rest: Rest, whole: Rest) {
    && whole.counts.onlyInA == d.counts.onlyInA + rest.counts.onlyInA
    && whole.counts.onlyInB == d.counts.onlyInB + rest.counts.onlyInB
    && whole.counts.inBoth == d.counts.inBoth + rest.counts.inBoth
    && d.seen + rest.deltas == whole.deltas
    && d.same + rest.same == whole.same
    && d.shared == Sizes(d.same) && d.counts.inBoth == d.counts.changed + |d.same|
  }

  function StepA(d: Done, x: Rec): Done {
    d.(counts := d.counts.(onlyInA := d.counts.onlyInA + 1), seen := d.seen + [RemovedFile(x)])
  }

  function StepB(d: Done, y: Rec): Done {
    d.(counts := d.counts.(onlyInB := d.counts.onlyInB + 1), seen := d.seen + [AddedFile(y)])
  }

  function StepChanged(d: Done, x: Rec, y: Rec): Done {
    d.(counts := d.counts.(inBoth := d.counts.inBoth + 1, changed := d.counts.changed + 1),
       seen := d.seen + [ChangedFile(x, y)])
  }

  function StepSame(d: Done, x: Rec): Done {
    d.(counts := d.counts.(inBoth := d.counts.inBoth + 1), shared := d.shared + x.sig.size, same := d.same + [x])
  }

  lemma Regroup<T>(xs: seq<T>, x: T, ys: seq<T>)
    ensures xs + ([x] + ys) == (xs + [x]) + ys
  {
  }

  lemma {:induction false} SizesSnoc(xs: seq<Rec>, x: Rec)
    ensures Sizes(xs + [x]) == Sizes(xs) + x.sig.size
  {
    assert Front(xs + [x]) == xs;
  }

  function AddOnlyA(c: FileCounts): FileCounts {
    c.(onlyInA := c.onlyInA + 1)
  }

  function AddOnlyB(c: FileCounts): FileCounts {
    c.(onlyInB := c.onlyInB + 1)
  }

  function AddInBoth(c: FileCounts): FileCounts {
    c.(inBoth := c.inBoth + 1)
  }

  function AddA(x: Rec, r: Rest): Rest {
    Rest(AddOnlyA(r.counts), [RemovedFile(x)] + r.deltas, r.same)
  }

  function AddB(y: Rec, r: Rest): Rest {
    Rest(AddOnlyB(r.counts), [AddedFile(y)] + r.deltas, r.same)
  }

  function AddBoth(x: Rec, y: Rec, r: Rest): Rest {
    var counts := AddInBoth(r.counts);
    if x.sig != y.sig then Rest(counts, [ChangedFile(x, y)] + r.deltas, r.same)
    else Rest(counts, r.deltas, [x] + r.same)
  }

  /** What the next round handles. */
  function CaseAt(xs: seq<Rec>, ys: seq<Rec>, i: nat, j: nat): Case
    requires i <= |xs| && j <= |ys| && (i < |xs| || j < |ys|)
  {
    if j >= |ys| || (i < |xs| && StringLess(xs[i].path, ys[j].path)) then OnlyA
    else if i >= |xs| || StringLess(ys[j].path, xs[i].path) then OnlyB
    else Both
  }

  /** What remains at a pair of positions, round by round. */
  function RestAt(xs: seq<Rec>, ys: seq<Rec>, i: nat, j: nat): Rest
    requires i <= |xs| && j <= |ys|
    decreases |xs| - i + |ys| - j
  {
    if i == |xs| && j == |ys| then Rest(FileCounts(0, 0, 0, 0), [], [])
    else match CaseAt(xs, ys, i, j)
      case OnlyA => AddA(xs[i], RestAt(xs, ys, i + 1, j))
      case OnlyB => AddB(ys[j], RestAt(xs, ys, i, j + 1))
      case Both => AddBoth(xs[i], ys[j], RestAt(xs, ys, i + 1, j + 1))
  }

  lemma Suffix(xs: seq<Rec>, i: nat)
    requires InPathOrder(xs) && i <= |xs|
    ensures InPathOrder(xs[i..]) && (xs[i..] == [] <==> i == |xs|)
    ensures i < |xs| ==> xs[i..][0] == xs[i] && xs[i..][1..] == xs[i + 1..]
  {
  }

  /** Counts at every pair of positions. */
  type CountsAt = (nat, nat) -> FileCounts

  /** One round takes one from the counts. */
  ghost predicate RoundCounts(t: CountsAt, xs: seq<Rec>, ys: seq<Rec>, i: nat, j: nat)
    requires i <= |xs| && j <= |ys| && (i < |xs| || j < |ys|)
  {
    match CaseAt(xs, ys, i, j)
    case OnlyA => t(i, j) == AddOnlyA(t(i + 1, j))
    case OnlyB => t(i, j) == AddOnlyB(t(i, j + 1))
    case Both => t(i, j) == AddInBoth(t(i + 1, j + 1))
  }

  lemma {:induction false} CountByRounds(t: CountsAt, xs: seq<Rec>, ys: seq<Rec>, i: nat, j: nat)
    requires i <= |xs| && j <= |ys| && t(|xs|, |ys|) == FileCounts(0, 0, 0, 0)
    requires forall p, q :: 0 <= p <= |xs| && 0 <= q <= |ys| && (p < |xs| || q < |ys|) ==> RoundCounts(t, xs, ys, p, q)
    ensures RestAt(xs, ys, i, j).counts == t(i, j)
    decreases |xs| - i + |ys| - j
  {
    if i < |xs| || j < |ys| {
      assert RoundCounts(t, xs, ys, i, j);
      match CaseAt(xs, ys, i, j)
      case OnlyA => CountByRounds(t, xs, ys, i + 1, j);
      case OnlyB => CountByRounds(t, xs, ys, i, j + 1);
      case Both => CountByRounds(t, xs, ys, i + 1, j + 1);
    }
  }

  ghost function TotalsFrom(xs: seq<Rec>, ys: seq<Rec>): CountsAt {
    (i: nat, j: nat) => if i <= |xs| && j <= |ys| then Totals(xs[i..], ys[j..]) else FileCounts(0, 0, 0, 0)
  }

  lemma {:induction false} TotalsRoundA(xs: seq<Rec>, ys: seq<Rec>, i: nat, j: nat)
    requires InPathOrder(xs) && InPathOrder(ys) && i <= |xs| && j <= |ys| && (i < |xs| || j < |ys|)
    requires CaseAt(xs, ys, i, j).OnlyA?
    ensures Totals(xs[i..], ys[j..]) == AddOnlyA(Totals(xs[i + 1..], ys[j..]))
  {
    Suffix(xs, i);
    Suffix(ys, j);
    TotalsOnlyA(xs[i..], ys[j..]);
  }

  lemma {:induction false} TotalsRoundB(xs: seq<Rec>, ys: seq<Rec>, i: nat, j: nat)
    requires InPathOrder(xs) && InPathOrder(ys) && i <= |xs| && j <= |ys| && (i < |xs| || j < |ys|)
    requires CaseAt(xs, ys, i, j).OnlyB?
    ensures Totals(xs[i..], ys[j..]) == AddOnlyB(Totals(xs[i..], ys[j + 1..]))
  {
    Suffix(xs, i);
    Suffix(ys, j);
    TotalsOnlyB(xs[i..], ys[j..]);
  }

  lemma {:induction false} TotalsRoundBoth(xs: seq<Rec>, ys: seq<Rec>, i: nat, j: nat)
    requires InPathOrder(xs) && InPathOrder(ys) && i <= |xs| && j <= |ys| && (i < |xs| || j < |ys|)
    requires CaseAt(xs, ys, i, j).Both?
    ensures Totals(xs[i..], ys[j..]) == AddInBoth(Totals(xs[i + 1..], ys[j + 1..]))
  {
    Suffix(xs, i);
    Suffix(ys, j);
    TotalsBoth(xs[i..], ys[j..]);
  }

  lemma {:induction false} TotalsRound(xs: seq<Rec>, ys: seq<Rec>, i: nat, j: nat)
    requires InPathOrder(xs) && InPathOrder(ys) && i <= |xs| && j <= |ys| && (i < |xs| || j < |ys|)
    ensures RoundCounts(TotalsFrom(xs, ys), xs, ys, i, j)
  {
    match CaseAt(xs, ys, i, j)
    case OnlyA => TotalsRoundA(xs, ys, i, j);
    case OnlyB => TotalsRoundB(xs, ys, i, j);
    case Both => TotalsRoundBoth(xs, ys, i, j);
  }

  lemma {:induction false} RestCounts(xs: seq<Rec>, ys: seq<Rec>)
    requires InPathOrder(xs) && InPathOrder(ys)
    ensures RestAt(xs, ys, 0, 0).counts == Totals(xs, ys)
  {
    assert xs[|xs|..] == [] && ys[|ys|..] == [] && xs[0..] == xs && ys[0..] == ys;
    forall i, j | 0 <= i <= |xs| && 0 <= j <= |ys| && (i < |xs| || j < |ys|)
      ensures RoundCounts(TotalsFrom(xs, ys), xs, ys, i, j)
    {
      TotalsRound(xs, ys, i, j);
    }
    CountByRounds(TotalsFrom(xs, ys), xs, ys, 0, 0);
  }

  lemma {:induction false} RestDeltas(xs: seq<Rec>, ys: seq<Rec>, i: nat, j: nat)
    requires InPathOrder(xs) && InPathOrder(ys) && i <= |xs| && j <= |ys|
    ensures RestAt(xs, ys, i, j).deltas == Deltas(xs[i..], ys[j..])
    decreases |xs| - i + |ys| - j
  {
    Suffix(xs, i);
    Suffix(ys, j);
    if i < |xs| || j < |ys| {
      match CaseAt(xs, ys, i, j)
      case OnlyA => RestDeltas(xs, ys, i + 1, j);
      case OnlyB => RestDeltas(xs, ys, i, j + 1);
      case Both => RestDeltas(xs, ys, i + 1, j + 1);
    }
  }

  lemma {:induction false} RestUnchanged(xs: seq<Rec>, ys: seq<Rec>, i: nat, j: nat)
    requires InPathOrder(xs) && InPathOrder(ys) && i <= |xs| && j <= |ys|
    ensures RestAt(xs, ys, i, j).same == Unchanged(xs[i..], ys[j..])
    decreases |xs| - i + |ys| - j
  {
    Suffix(xs, i);
    Suffix(ys, j);
    if i < |xs| || j < |ys| {
      match CaseAt(xs, ys, i, j)
      case OnlyA => RestUnchanged(xs, ys, i + 1, j);
      case OnlyB => RestUnchanged(xs, ys, i, j + 1);
      case Both => RestUnchanged(xs, ys, i + 1, j + 1);
    }
  }

  /** Everything the join produces, in the terms of its specification. */
  lemma WholeIs(xs: seq<Rec>, ys: seq<Rec>)
    requires InPathOrder(xs) && InPathOrder(ys)
    ensures RestAt(xs, ys, 0, 0) == Rest(Totals(xs, ys), Deltas(xs, ys), Unchanged(xs, ys))
  {
    assert xs[0..] == xs && ys[0..] == ys;
    RestCounts(xs, ys);
    RestDeltas(xs, ys, 0, 0);
    RestUnchanged(xs, ys, 0, 0);
  }

  lemma ProgressA(d: Done, x: Rec, r: Rest, whole: Rest)
    requires Progress(d, AddA(x, r), whole)
    ensures Progress(StepA(d, x), r, whole)
  {
    Regroup(d.seen, RemovedFile(x), r.deltas);
  }

  lemma ProgressB(d: Done, y: Rec, r: Rest, whole: Rest)
    requires Progress(d, AddB(y, r), whole)
    ensures Progress(StepB(d, y), r, whole)
  {
    Regroup(d.seen, AddedFile(y), r.deltas);
  }

  lemma ProgressBoth(d: Done, x: Rec, y: Rec, r: Rest, whole: Rest)
    requires Progress(d, AddBoth(x, y, r), whole)
    ensures x.sig != y.sig ==> Progress(StepChanged(d, x, y), r, whole)
    ensures x.sig == y.sig ==> Progress(StepSame(d, x), r, whole)
  {
    if x.sig != y.sig {
      Regroup(d.seen, ChangedFile(x, y), r.deltas);
    } else {
      Regroup(d.same, x, r.same);
      SizesSnoc(d.same, x);
    }
  }

  lemma Started(whole: Rest)
    ensures Progress(Done(FileCounts(0, 0, 0, 0), 0, [], []), whole, whole)
  {
  }

  lemma {:induction false} Finished(d: Done, whole: Rest)
    requires Progress(d, Rest(FileCounts(0, 0, 0, 0), [], []), whole)
    ensures d.counts == whole.counts.(changed := d.counts.changed) && d.seen == whole.deltas && d.same == whole.same
    ensures d.shared == Sizes(whole.same) && d.counts.inBoth == d.counts.changed + |whole.same|
  {
  }

  /** The list holds the first of all deltas seen so far. */
  ghost predicate Holds(top: TopList, seen: seq<FileDelta>)
    reads top, top.buf
  {
    top.Valid() && top.Contents() == Take(top.cap, Sort(Before, seen))
  }

  method OfferNext(top: TopList, d: FileDelta, ghost seen: seq<FileDelta>)
    requires Holds(top, seen)
    modifies top`len, top.buf
    ensures Holds(top, seen + [d])
  {
    top.Offer(d);
    assert Front(seen + [d]) == seen;
    TakePlace(Before, d, Sort(Before, seen), top.cap);
  }

  datatype JoinResult = JoinResult(counts: FileCounts, shared: int, top: seq<FileDelta>)

  /** Where the join stands: two positions, the counters, and the list. */
  datatype Cursor = Cursor(i: nat, j: nat, counts: FileCounts, shared: int)

  /** The cursor agrees with what has been done of the whole. */
  ghost predicate At(c: Cursor, d: Done, xs: seq<Rec>, ys: seq<Rec>, whole: Rest) {
    && c.i <= |xs| && c.j <= |ys| && d.counts == c.counts && d.shared == c.shared
    && Progress(d, RestAt(xs, ys, c.i, c.j), whole)
  }

  function AfterA(c: Cursor): Cursor {
    c.(i := c.i + 1, counts := c.counts.(onlyInA := c.counts.onlyInA + 1))
  }

  function AfterB(c: Cursor): Cursor {
    c.(j := c.j + 1, counts := c.counts.(onlyInB := c.counts.onlyInB + 1))
  }

  function AfterBoth(c: Cursor, x: Rec, y: Rec): Cursor {
    var counts := c.counts.(inBoth := c.counts.inBoth + 1);
    if x.sig != y.sig then Cursor(c.i + 1, c.j + 1, counts.(changed := counts.changed + 1), c.shared)
    else Cursor(c.i + 1, c.j + 1, counts, c.shared + x.sig.size)
  }

  lemma {:induction false} AtA(c: Cursor, d: Done, xs: seq<Rec>, ys: seq<Rec>, whole: Rest)
    requires At(c, d, xs, ys, whole) && (c.i < |xs| || c.j < |ys|) && CaseAt(xs, ys, c.i, c.j).OnlyA?
    ensures c.i < |xs| && At(AfterA(c), StepA(d, xs[c.i]), xs, ys, whole)
  {
    ProgressA(d, xs[c.i], RestAt(xs, ys, c.i + 1, c.j), whole);
  }

  lemma {:induction false} AtB(c: Cursor, d: Done, xs: seq<Rec>, ys: seq<Rec>, whole: Rest)
    requires At(c, d, xs, ys, whole) && (c.i < |xs| || c.j < |ys|) && CaseAt(xs, ys, c.i, c.j).OnlyB?
    ensures c.j < |ys| && At(AfterB(c), StepB(d, ys[c.j]), xs, ys, whole)
  {
    ProgressB(d, ys[c.j], RestAt(xs, ys, c.i, c.j + 1), whole);
  }

  lemma {:induction false} AtBoth(c: Cursor, d: Done, xs: seq<Rec>, ys: seq<Rec>, whole: Rest)
    requires At(c, d, xs, ys, whole) && (c.i < |xs| || c.j < |ys|) && CaseAt(xs, ys, c.i, c.j).Both?
    ensures c.i < |xs| && c.j < |ys|
    ensures var x, y := xs[c.i], ys[c.j];
            At(AfterBoth(c, x, y), if x.sig != y.sig then StepChanged(d, x, y) else StepSame(d, x), xs, ys, whole)
  {
    ProgressBoth(d, xs[c.i], ys[c.j], RestAt(xs, ys, c.i + 1, c.j + 1), whole);
  }

  /** One round of the loop. */
  method JoinStep(xs: seq<Rec>, ys: seq<Rec>, c: Cursor, top: TopList, ghost d: Done, ghost whole: Rest)
    returns (c': Cursor, ghost d': Done)
    requires At(c, d, xs, ys, whole) && Holds(top, d.seen) && (c.i < |xs| || c.j < |ys|)
    modifies top`len, top.buf
    ensures At(c', d', xs, ys, whole) && Holds(top, d'.seen)
    ensures c.i <= c'.i && c.j <= c'.j && c'.i + c'.j > c.i + c.j
  {
    if c.j >= |ys| || (c.i < |xs| && StringLess(xs[c.i].path, ys[c.j].path)) {
      AtA(c, d, xs, ys, whole);
      OfferNext(top, RemovedFile(xs[c.i]), d.seen);
      c', d' := AfterA(c), StepA(d, xs[c.i]);
    } else if c.i >= |xs| || StringLess(ys[c.j].path, xs[c.i].path) {
      AtB(c, d, xs, ys, whole);
      OfferNext(top, AddedFile(ys[c.j]), d.seen);
      c', d' := AfterB(c), StepB(d, ys[c.j]);
    } else {
      var x, y := xs[c.i], ys[c.j];
      AtBoth(c, d, xs, ys, whole);
      if x.sig != y.sig {
        OfferNext(top, ChangedFile(x, y), d.seen);
        d' := StepChanged(d, x, y);
      } else {
        d' := StepSame(d, x);
      }
      c' := AfterBoth(c, x, y);
    }
  }

  /** For any two sorted streams, even with repeated paths: the counts are those of the path bags, the list is the
      first `topN` of all deltas in rank order. */
  method MergeJoin(xs: seq<Rec>, ys: seq<Rec>, topN: nat) returns (r: JoinResult)
    requires InPathOrder(xs) && InPathOrder(ys) && topN > 0
    ensures r.counts.onlyInA == |PathBag(xs) - PathBag(ys)|
    ensures r.counts.onlyInB == |PathBag(ys) - PathBag(xs)|
    ensures r.counts.inBoth == |PathBag(xs) * PathBag(ys)|
    ensures r.counts.changed == r.counts.inBoth - |Unchanged(xs, ys)|
    ensures r.shared == Sizes(Unchanged(xs, ys))
    ensures r.top == Take(topN, Sort(Before, Deltas(xs, ys))) && Largest(topN, Deltas(xs, ys), r.top)
  {
    FirstAreLargest(topN, Deltas(xs, ys));
    var top := new TopList(topN);
    var c := Cursor(0, 0, FileCounts(0, 0, 0, 0), 0);
    ghost var d := Done(c.counts, 0, [], []);
    ghost var whole := RestAt(xs, ys, 0, 0);
    Started(whole);
    WholeIs(xs, ys);
    while c.i < |xs| || c.j < |ys|
      invariant fresh(top) && fresh(top.buf) && top.cap == topN && Holds(top, d.seen)
      invariant At(c, d, xs, ys, whole)
      decreases |xs| - c.i + |ys| - c.j
    {
      c, d := JoinStep(xs, ys, c, top, d, whole);
    }
    Finished(d, whole);
    r := JoinResult(c.counts, c.shared, top.buf[..top.len]);
  }
}
