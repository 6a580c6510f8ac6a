/** Small definitions shared by every module of the project. */
module Common {

  datatype Option<+T> = None | Some(value: T)

  function Max(a: int, b: int): int {
    if a < b then b else a
  }

  /** Different arguments have different images: how a collision-free digest appears here. */
  ghost predicate Injective<S(!new), T>(f: S -> T) {
    forall x, y :: f(x) == f(y) ==> x == y
  }

  // ---- signed 64-bit integers ----

  const TWO63: int := 0x8000_0000_0000_0000
  const TWO64: int := 0x1_0000_0000_0000_0000

  predicate Int64(n: int) {
    -TWO63 <= n < TWO63
  }

  /** Two's complement. */
  function Wrap64(n: int): (r: int)
    ensures Int64(r)
    ensures Int64(n) ==> r == n
  {
    (n + TWO63) % TWO64 - TWO63
  }

  // ---- sequences ----

  function Front<T>(xs: seq<T>): seq<T>
    requires xs != []
  {
    xs[..|xs| - 1]
  }

  function Last<T>(xs: seq<T>): T
    requires xs != []
  {
    xs[|xs| - 1]
  }

  lemma RemoveAt<T>(xs: seq<T>, k: nat)
    requires k < |xs|
    ensures multiset(xs) == multiset(xs[..k] + xs[k + 1..]) + multiset{xs[k]}
  {
    assert xs == xs[..k] + [xs[k]] + xs[k + 1..];
  }

  /** Different places of a sequence have different places in a permutation of it. */
  lemma TwoPlaces<T>(xs: seq<T>, ys: seq<T>, i: nat, j: nat) returns (p: nat, q: nat)
    requires multiset(xs) == multiset(ys) && i < j < |xs|
    ensures p < |ys| && q < |ys| && p != q && ys[p] == xs[i] && ys[q] == xs[j]
  {
    assert xs[i] in multiset(ys);
    p :| 0 <= p < |ys| && ys[p] == xs[i];
    RemoveAt(xs, i);
    RemoveAt(ys, p);
    var rest, others := xs[..i] + xs[i + 1..], ys[..p] + ys[p + 1..];
    assert rest[j - 1] == xs[j] && xs[j] in multiset(rest);
    assert (multiset(rest) + multiset{xs[i]})[xs[j]] == (multiset(others) + multiset{ys[p]})[xs[j]];
    var k :| 0 <= k < |others| && others[k] == xs[j];
    q := if k < p then k else k + 1;
  }
}
