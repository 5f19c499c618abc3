/** Byte order of the dataset headers: `reverse_integer` swaps the bytes of
    an integer and `load_big_endian` reads a big-endian word on a
    little-endian host by reading it natively and swapping. */
module ByteOrder {

  newtype byte = x: int | 0 <= x < 256

  function Pow256(n: nat): (r: nat)
    ensures r > 0
  {
    if n == 0 then 1 else 256 * Pow256(n - 1)
  }

  /** The bytes in the opposite order: byte i goes to position |s| - i - 1. */
  function Reversed(s: seq<byte>): (r: seq<byte>)
    ensures |r| == |s|
    ensures forall i :: 0 <= i < |s| ==> r[i] == s[|s| - 1 - i]
  {
    if s == [] then [] else Reversed(s[1..]) + [s[0]]
  }

  lemma ReversedInvolutive(s: seq<byte>)
    ensures Reversed(Reversed(s)) == s
  {
  }

  /** The number a little-endian host reads from these bytes in memory:
      byte 0 is the least significant. */
  function HostValue(bs: seq<byte>): (v: nat)
    ensures v < Pow256(|bs|)
  {
    if bs == [] then 0 else bs[0] as nat + 256 * HostValue(bs[1..])
  }

  /** The bytes a little-endian host stores for x in an integer of `width` bytes. */
  function HostBytes(x: nat, width: nat): (bs: seq<byte>)
    requires x < Pow256(width)
    ensures |bs| == width
    ensures HostValue(bs) == x
  {
    if width == 0 then []
    else
      var rest := HostBytes(x / 256, width - 1);
      assert ([(x % 256) as byte] + rest)[1..] == rest;
      [(x % 256) as byte] + rest
  }

  /** Reading bytes and storing the number back gives the same bytes. */
  lemma {:induction false} HostBytesOfValue(bs: seq<byte>)
    ensures HostBytes(HostValue(bs), |bs|) == bs
  {
    if bs != [] {
      HostBytesOfValue(bs[1..]);
      assert HostValue(bs) % 256 == bs[0] as nat;
      assert HostValue(bs) / 256 == HostValue(bs[1..]);
    }
  }

  /** reverse_integer: reinterpret x as bytes, write byte i of the input to
      position width - i - 1 of the output, reinterpret the output. */
  method ReverseInteger(x: nat, width: nat) returns (r: nat)
    requires x < Pow256(width)
    ensures r < Pow256(width)
    ensures HostBytes(r, width) == Reversed(HostBytes(x, width))
    ensures r == ByteSwap(x, width)
  {
    var input := HostBytes(x, width);
    var output := new byte[width];
    for i := 0 to width
      invariant forall k :: 0 <= k < i ==> output[width - k - 1] == input[k]
    {
      output[width - i - 1] := input[i];
    }
    assert output[..] == Reversed(input);
    r := HostValue(output[..]);
    HostBytesOfValue(output[..]);
  }

  /** The value reverse_integer returns. */
  function ByteSwap(x: nat, width: nat): (r: nat)
    requires x < Pow256(width)
    ensures r < Pow256(width)
    ensures HostBytes(r, width) == Reversed(HostBytes(x, width))
  {
    HostBytesOfValue(Reversed(HostBytes(x, width)));
    HostValue(Reversed(HostBytes(x, width)))
  }

  /** Swapping the bytes twice gives back the original integer. */
  lemma ByteSwapInvolutive(x: nat, width: nat)
    requires x < Pow256(width)
    ensures ByteSwap(ByteSwap(x, width), width) == x
  {
    var y := ByteSwap(x, width);
    var z := ByteSwap(y, width);
    ReversedInvolutive(HostBytes(x, width));
    assert HostBytes(z, width) == HostBytes(x, width);
  }

  /** Reference reading of a big-endian number: the first byte is the most significant. */
  function BigEndian(bs: seq<byte>): nat {
    if bs == [] then 0 else BigEndian(bs[..|bs| - 1]) * 256 + bs[|bs| - 1] as nat
  }

  /** A little-endian read of the reversed bytes is the big-endian reading. */
  lemma {:induction false} HostValueOfReversed(bs: seq<byte>)
    ensures HostValue(Reversed(bs)) == BigEndian(bs)
  {
    if bs != [] {
      var n := |bs| - 1;
      HostValueOfReversed(bs[..n]);
      assert Reversed(bs) == [bs[n]] + Reversed(bs[..n]);
      assert Reversed(bs)[1..] == Reversed(bs[..n]);
    }
  }

  /** load_big_endian<T>: the native read of the bytes, then reverse_integer. */
  function LoadBigEndian(bs: seq<byte>): (v: nat)
    ensures v == BigEndian(bs)
  {
    HostBytesOfValue(bs);
    HostValueOfReversed(bs);
    ByteSwap(HostValue(bs), |bs|)
  }

  /** For a 32-bit word: b0 * 2^24 + b1 * 2^16 + b2 * 2^8 + b3. */
  lemma LoadBigEndianWord(b0: byte, b1: byte, b2: byte, b3: byte)
    ensures LoadBigEndian([b0, b1, b2, b3]) ==
            b0 as nat * 16777216 + b1 as nat * 65536 + b2 as nat * 256 + b3 as nat
  {
    assert [b0][..0] == [];
    assert BigEndian([b0]) == b0 as nat;
    assert [b0, b1][..1] == [b0];
    assert BigEndian([b0, b1]) == b0 as nat * 256 + b1 as nat;
    assert [b0, b1, b2][..2] == [b0, b1];
    assert BigEndian([b0, b1, b2]) == b0 as nat * 65536 + b1 as nat * 256 + b2 as nat;
    assert [b0, b1, b2, b3][..3] == [b0, b1, b2];
  }

  /** The big-endian encoding of x in `width` bytes, as a dataset file stores it. */
  function BigEndianBytes(x: nat, width: nat): (bs: seq<byte>)
    requires x < Pow256(width)
    ensures |bs| == width
  {
    Reversed(HostBytes(x, width))
  }

  /** load_big_endian reads back what BigEndianBytes wrote. */
  lemma LoadBigEndianBytes(x: nat, width: nat)
    requires x < Pow256(width)
    ensures LoadBigEndian(BigEndianBytes(x, width)) == x
  {
    var h := HostBytes(x, width);
    HostValueOfReversed(Reversed(h));
    ReversedInvolutive(h);
  }
}
