/** Values shared by every component: options, bytes and little-endian integers. */
module Base {

  datatype Option<+T> = None | Some(value: T)

  type Byte = b: int | 0 <= b < 256

  type Bytes = seq<Byte>

  /** 256 to the power k: the number of values k bytes can hold. */
  function Pow256(k: nat): (p: nat)
    ensures p > 0
  {
    if k == 0 then 1 else 256 * Pow256(k - 1)
  }

  /** The low k bytes of n, least significant first; higher bytes are lost, as in a truncating cast. */
  function Le(n: nat, k: nat): (b: Bytes)
    ensures |b| == k
  {
    if k == 0 then [] else [n % 256] + Le(n / 256, k - 1)
  }

  /** The number a little-endian byte string stands for. */
  function FromLe(b: Bytes): (n: nat)
    ensures n < Pow256(|b|)
  {
    if b == [] then 0 else b[0] + 256 * FromLe(b[1..])
  }

  lemma {:induction false} LeRoundTrip(n: nat, k: nat)
    requires n < Pow256(k)
    ensures FromLe(Le(n, k)) == n
  {
    if k == 0 {
    } else {
      assert Le(n, k)[1..] == Le(n / 256, k - 1);
      LeRoundTrip(n / 256, k - 1);
    }
  }

  lemma {:induction false} LeCanonical(b: Bytes)
    ensures Le(FromLe(b), |b|) == b
  {
    if b == [] {
    } else {
      LeCanonical(b[1..]);
      assert FromLe(b) / 256 == FromLe(b[1..]);
      assert b == [b[0]] + b[1..];
    }
  }

  lemma Widths()
    ensures Pow256(4) == 0x1_0000_0000
    ensures Pow256(8) == 0x1_0000_0000_0000_0000
  {
    assert Pow256(2) == 65536;
    assert Pow256(4) == 65536 * 65536;
    assert Pow256(6) == 65536 * Pow256(4);
  }
}
