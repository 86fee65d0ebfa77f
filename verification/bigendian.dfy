/** Unsigned big-endian integers on the wire: the `I` (and `B`) codes of
    Python's `struct` module under the `>` byte order. */
module BigEndian {

  newtype byte = x: int | 0 <= x < 256

  /** 256 to the power n: the number of values an n-byte field can hold. */
  function Pow256(n: nat): (r: nat)
    ensures r >= 1
  {
    if n == 0 then 1 else 256 * Pow256(n - 1)
  }

  /** The value of `b` read as an unsigned big-endian number; n bytes
      denote a value below 256^n. */
  function FromBytes(b: seq<byte>): (r: nat)
    ensures r < Pow256(|b|)
  {
    if |b| == 0 then 0 else FromBytes(b[..|b| - 1]) * 256 + b[|b| - 1] as nat
  }

  /** The n-byte big-endian representation of v, keeping only its low n bytes. */
  function ToBytes(v: nat, n: nat): (r: seq<byte>)
    ensures |r| == n
  {
    if n == 0 then [] else ToBytes(v / 256, n - 1) + [(v % 256) as byte]
  }

  /** Appending a low-order byte shifts the value up by one byte. */
  lemma FromBytesSnoc(a: seq<byte>, x: byte)
    ensures FromBytes(a + [x]) == FromBytes(a) * 256 + x as nat
  {
  }

  /** Decoding what was encoded gives back the value, provided it fits. */
  lemma {:induction false} FromToBytes(v: nat, n: nat)
    requires v < Pow256(n)
    ensures FromBytes(ToBytes(v, n)) == v
  {
    if n > 0 {
      var q := v / 256;
      var x := (v % 256) as byte;
      assert x as nat == v % 256;
      FromToBytes(q, n - 1);
      FromBytesSnoc(ToBytes(q, n - 1), x);
    }
  }

  /** Encoding what was decoded gives back the same bytes. */
  lemma {:induction false} ToFromBytes(b: seq<byte>)
    ensures ToBytes(FromBytes(b), |b|) == b
  {
    if |b| > 0 {
      var init := b[..|b| - 1];
      var v := FromBytes(b);
      assert v / 256 == FromBytes(init);
      assert v % 256 == b[|b| - 1] as nat;
      ToFromBytes(init);
      assert b == init + [b[|b| - 1]];
    }
  }

  /** The encoding is injective on values that fit in n bytes. */
  lemma ToBytesInjective(v: nat, w: nat, n: nat)
    requires v < Pow256(n) && w < Pow256(n)
    requires ToBytes(v, n) == ToBytes(w, n)
    ensures v == w
  {
    FromToBytes(v, n);
    FromToBytes(w, n);
  }
}
