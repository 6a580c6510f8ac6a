/** Fixed-width big-endian integers, their byte order, and lexicographic comparison. */
module Bytes {

  newtype byte = x: int | 0 <= x < 256

  function Pow256(w: nat): nat {
    if w == 0 then 1 else 256 * Pow256(w - 1)
  }

  /** The `w` low bytes of `n`, most significant first. */
  function BigEndian(n: nat, w: nat): (b: seq<byte>)
    ensures |b| == w
  {
    if w == 0 then [] else BigEndian(n / 256, w - 1) + [(n % 256) as byte]
  }

  function FromBigEndian(b: seq<byte>): nat {
    if b == [] then 0 else 256 * FromBigEndian(b[..|b| - 1]) + b[|b| - 1] as nat
  }

  lemma {:induction false} BigEndianRoundTrip(n: nat, w: nat)
    requires n < Pow256(w)
    ensures FromBigEndian(BigEndian(n, w)) == n
  {
    if w > 0 {
      BigEndianRoundTrip(n / 256, w - 1);
      assert BigEndian(n, w)[..w - 1] == BigEndian(n / 256, w - 1);
    }
  }

  /** bytes.Compare(x, y) < 0 */
  predicate Less(x: seq<byte>, y: seq<byte>) {
    if y == [] then false
    else if x == [] then true
    else x[0] < y[0] || (x[0] == y[0] && Less(x[1..], y[1..]))
  }

  lemma {:induction false} LessSnoc(x: seq<byte>, y: seq<byte>, c: byte, d: byte)
    requires |x| == |y|
    ensures Less(x + [c], y + [d]) <==> Less(x, y) || (x == y && c < d)
  {
    if x == [] {
      assert x + [c] == [c] && y + [d] == [d];
      assert [c][1..] == [] && [d][1..] == [];
    } else {
      assert (x + [c])[1..] == x[1..] + [c] && (y + [d])[1..] == y[1..] + [d];
      LessSnoc(x[1..], y[1..], c, d);
      assert x == [x[0]] + x[1..] && y == [y[0]] + y[1..];
    }
  }

  lemma {:induction false} LessAsymmetric(x: seq<byte>, y: seq<byte>)
    requires Less(x, y)
    ensures !Less(y, x)
  {
    if x != [] && x[0] == y[0] { LessAsymmetric(x[1..], y[1..]); }
  }

  /** Whatever is below `y` is below everything that is not below `y`. */
  lemma {:induction false} LessThrough(x: seq<byte>, y: seq<byte>, z: seq<byte>)
    requires Less(x, y) && !Less(z, y)
    ensures Less(x, z)
  {
    if x != [] && z != [] && x[0] == y[0] && z[0] == y[0] { LessThrough(x[1..], y[1..], z[1..]); }
  }

  /** Byte order of fixed-width big-endian integers is the order of the integers. */
  lemma {:induction false} BigEndianOrder(a: nat, b: nat, w: nat)
    requires a < Pow256(w) && b < Pow256(w)
    ensures Less(BigEndian(a, w), BigEndian(b, w)) <==> a < b
    ensures BigEndian(a, w) == BigEndian(b, w) <==> a == b
  {
    BigEndianRoundTrip(a, w);
    BigEndianRoundTrip(b, w);
    if w > 0 {
      BigEndianOrder(a / 256, b / 256, w - 1);
      LessSnoc(BigEndian(a / 256, w - 1), BigEndian(b / 256, w - 1), (a % 256) as byte, (b % 256) as byte);
    }
  }

  lemma Pow256Four()
    ensures Pow256(4) == 0x1_0000_0000
  {
    assert Pow256(1) == 256 && Pow256(2) == 65536 && Pow256(3) == 16777216;
  }

  lemma Pow256Eight()
    ensures Pow256(8) == 0x1_0000_0000_0000_0000
  {
    Pow256Four();
    assert Pow256(5) == 256 * Pow256(4) && Pow256(6) == 256 * Pow256(5);
    assert Pow256(7) == 256 * Pow256(6) && Pow256(8) == 256 * Pow256(7);
  }
}
