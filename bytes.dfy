/** Bytes and the integer conversions a JavaScript DataView performs when it
    stores a number: ToUint8/ToUint16/ToUint32 reduce modulo a power of two,
    ToInt16 first truncates toward zero, and multi-byte values are laid out
    little-endian when the `littleEndian` flag is true. */
module Bytes {

  newtype Byte = b: int | 0 <= b < 256

  const TWO_16: int := 0x1_0000
  const TWO_32: int := 0x1_0000_0000

  /** 256^n, the number of distinct values n bytes can hold. */
  function Pow256(n: nat): (r: nat)
    ensures r > 0
  {
    if n == 0 then 1 else 256 * Pow256(n - 1)
  }

  /** The `width` low-order bytes of `v`, least significant first. */
  function LittleEndian(v: nat, width: nat): (r: seq<Byte>)
    ensures |r| == width
  {
    if width == 0 then [] else [(v % 256) as Byte] + LittleEndian(v / 256, width - 1)
  }

  /** The unsigned integer a little-endian byte sequence denotes. */
  function FromLittleEndian(bs: seq<Byte>): (r: nat)
    ensures r < Pow256(|bs|)
  {
    if bs == [] then 0 else bs[0] as nat + 256 * FromLittleEndian(bs[1..])
  }

  /** Decoding what was encoded gives back every value that fits in `width` bytes. */
  lemma {:induction false} DecodeEncode(v: nat, width: nat)
    requires v < Pow256(width)
    ensures FromLittleEndian(LittleEndian(v, width)) == v
  {
    if width > 0 {
      DecodeEncode(v / 256, width - 1);
      assert LittleEndian(v, width)[1..] == LittleEndian(v / 256, width - 1);
    }
  }

  /** Encoding what was decoded gives back the same bytes. */
  lemma {:induction false} EncodeDecode(bs: seq<Byte>)
    ensures LittleEndian(FromLittleEndian(bs), |bs|) == bs
  {
    if bs != [] {
      var v := FromLittleEndian(bs);
      EncodeDecode(bs[1..]);
      assert v % 256 == bs[0] as int && v / 256 == FromLittleEndian(bs[1..]);
    }
  }

  /** ECMAScript ToUint16 of an integer: reduction modulo 2^16. */
  function ToUint16(x: int): (r: nat)
    ensures r < TWO_16
    ensures 0 <= x < TWO_16 ==> r == x
  {
    x % TWO_16
  }

  /** ECMAScript ToUint32 of an integer: reduction modulo 2^32. */
  function ToUint32(x: int): (r: nat)
    ensures r < TWO_32
    ensures 0 <= x < TWO_32 ==> r == x
  {
    x % TWO_32
  }

  /** The integer part of a number, rounded toward zero (the first step of ToInt16). */
  function Trunc(x: real): (n: int)
    ensures x >= 0.0 ==> 0 <= n && n as real <= x < n as real + 1.0
    ensures x < 0.0 ==> n <= 0 && n as real - 1.0 < x <= n as real
  {
    if x >= 0.0 then x.Floor else -((-x).Floor)
  }

  /** Rounding toward zero never reverses the order of two numbers. */
  lemma TruncMonotone(x: real, y: real)
    requires x <= y
    ensures Trunc(x) <= Trunc(y)
  {
    if x >= 0.0 {
      assert x.Floor <= y.Floor;
    } else if y < 0.0 {
      assert (-y).Floor <= (-x).Floor;
    }
  }

  /** The signed 16-bit integer a two-byte little-endian two's-complement field denotes. */
  function FromInt16LE(bs: seq<Byte>): (n: int)
    requires |bs| == 2
    ensures -0x8000 <= n < 0x8000
  {
    var u := FromLittleEndian(bs);
    assert Pow256(2) == TWO_16;
    if u >= 0x8000 then u - TWO_16 else u
  }

  /** Every int16 survives the DataView round trip: store its 16-bit pattern, read it back signed. */
  lemma Int16RoundTrip(n: int)
    requires -0x8000 <= n < 0x8000
    ensures FromInt16LE(LittleEndian(ToUint16(n), 2)) == n
  {
    assert Pow256(2) == TWO_16;
    DecodeEncode(ToUint16(n), 2);
  }

  /** The bytes a DataView set* call writes at `off` after the call, everything else untouched. */
  ghost predicate Stored(view: seq<Byte>, was: seq<Byte>, off: nat, bs: seq<Byte>)
  {
    |view| == |was| && off + |bs| <= |view| &&
    view[..off] == was[..off] && view[off..off + |bs|] == bs && view[off + |bs|..] == was[off + |bs|..]
  }

  /** A slice is determined by its bytes. */
  lemma SliceIs(w: seq<Byte>, off: nat, bs: seq<Byte>)
    requires off + |bs| <= |w|
    requires forall i :: 0 <= i < |bs| ==> w[off + i] == bs[i]
    ensures w[off..off + |bs|] == bs
  {
  }

  /** Two adjacent writes, `first` at `off` and then `second` right after it,
      leave the same state as one write of `first + second`. */
  lemma {:induction false} StoredConcat(view: seq<Byte>, mid: seq<Byte>, was: seq<Byte>, off: nat, first: seq<Byte>, second: seq<Byte>)
    requires Stored(mid, was, off, first)
    requires Stored(view, mid, off + |first|, second)
    ensures Stored(view, was, off, first + second)
  {
    var end := off + |first| + |second|;
    assert view[..off] == view[..off + |first|][..off] == mid[..off + |first|][..off] == was[..off];
    assert view[off..end] == view[off..off + |first|] + view[off + |first|..end];
    assert view[off..off + |first|] == view[..off + |first|][off..] == mid[..off + |first|][off..] == first;
    assert view[end..] == mid[off + |first|..][|second|..] == was[off + |first|..][|second|..] == was[end..];
  }

  /** Writes `bs` into `view` at `off`, one byte at a time. */
  method WriteBytes(view: array<Byte>, off: nat, bs: seq<Byte>)
    requires off + |bs| <= view.Length
    modifies view
    ensures Stored(view[..], old(view[..]), off, bs)
  {
    for i := 0 to |bs|
      invariant view[..off] == old(view[..off])
      invariant view[off..off + i] == bs[..i]
      invariant view[off + |bs|..] == old(view[off + |bs|..])
      invariant forall k :: off + i <= k < off + |bs| ==> view[k] == old(view[k])
    {
      view[off + i] := bs[i];
      assert view[off..off + i + 1] == view[off..off + i] + [bs[i]];
      assert bs[..i + 1] == bs[..i] + [bs[i]];
    }
  }

  /** DataView.setUint16(off, v, true). */
  method SetUint16(view: array<Byte>, off: nat, v: int)
    requires off + 2 <= view.Length
    modifies view
    ensures Stored(view[..], old(view[..]), off, LittleEndian(ToUint16(v), 2))
  {
    WriteBytes(view, off, LittleEndian(ToUint16(v), 2));
  }

  /** DataView.setUint32(off, v, true). */
  method SetUint32(view: array<Byte>, off: nat, v: int)
    requires off + 4 <= view.Length
    modifies view
    ensures Stored(view[..], old(view[..]), off, LittleEndian(ToUint32(v), 4))
  {
    WriteBytes(view, off, LittleEndian(ToUint32(v), 4));
  }

  /** DataView.setInt16(off, x, true): ToInt16 truncates toward zero and wraps
      modulo 2^16; the stored bit pattern is that of ToUint16 of the same integer. */
  method SetInt16(view: array<Byte>, off: nat, x: real)
    requires off + 2 <= view.Length
    modifies view
    ensures Stored(view[..], old(view[..]), off, LittleEndian(ToUint16(Trunc(x)), 2))
  {
    WriteBytes(view, off, LittleEndian(ToUint16(Trunc(x)), 2));
  }
}
