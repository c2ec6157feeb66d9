/** Pixel arithmetic shared by the camera capture and the upload preprocessing: the store
    into a `Uint8ClampedArray` and the linear contrast stretch around mid-grey that both
    paths apply to every R, G and B byte. Arithmetic is exact over reals. */
module Pixels {

  /** One byte of canvas image data. */
  type Byte = x: int | 0 <= x < 256

  const Midpoint: real := 128.0

  /** Contrast factor of the capture and upload paths (1.1). */
  const ContrastGain: real := 1.1

  function Clamp(x: real, lo: real, hi: real): (r: real)
    requires lo <= hi
    ensures lo <= r <= hi
    ensures lo <= x <= hi ==> r == x
  {
    if x < lo then lo else if x > hi then hi else x
  }

  /** Round to the nearest integer, ties to the even neighbour. */
  function RoundHalfEven(x: real): (n: int)
    ensures x - 0.5 <= n as real <= x + 0.5
  {
    var f := x.Floor;
    var frac := x - f as real;
    if frac < 0.5 then f
    else if frac > 0.5 then f + 1
    else if f % 2 == 0 then f else f + 1
  }

  lemma RoundMonotone(x: real, y: real)
    requires x <= y
    ensures RoundHalfEven(x) <= RoundHalfEven(y)
  {
    var fx, fy := x.Floor, y.Floor;
    if fx == fy {
      assert x - fx as real <= y - fy as real;
    } else {
      assert fx + 1 <= fy;
    }
  }

  lemma RoundOfInteger(n: int)
    ensures RoundHalfEven(n as real) == n
  {
    assert (n as real).Floor == n;
  }

  /** The value a `Uint8ClampedArray` holds after a real number is written into it. */
  function StoreByte(x: real): (b: Byte)
    ensures 0.0 <= x <= 255.0 ==> x - 0.5 <= b as real <= x + 0.5
  {
    var c := Clamp(x, 0.0, 255.0);
    assert 0 <= RoundHalfEven(c) <= 255 by {
      if c < 255.0 { assert RoundHalfEven(c) as real <= c + 0.5; }
      else { RoundOfInteger(255); }
    }
    RoundHalfEven(c)
  }

  lemma StoreByteMonotone(x: real, y: real)
    requires x <= y
    ensures StoreByte(x) <= StoreByte(y)
  {
    RoundMonotone(Clamp(x, 0.0, 255.0), Clamp(y, 0.0, 255.0));
  }

  lemma StoreByteOfByte(b: Byte)
    ensures StoreByte(b as real) == b
  {
    RoundOfInteger(b);
  }

  /** The linear contrast stretch `(v - 128) * gain + 128`. */
  function Stretch(v: real, gain: real): real
  {
    (v - Midpoint) * gain + Midpoint
  }

  /** `Math.min(255, Math.max(0, (v - 128) * gain + 128))`, then stored as a byte. */
  function ContrastChannel(v: real, gain: real): Byte
  {
    StoreByte(Clamp(Stretch(v, gain), 0.0, 255.0))
  }

  /** With a gain of at least 1 the linear stretch moves a value away from mid-grey. */
  lemma StretchAwayFromMidpoint(v: real, gain: real)
    requires gain >= 1.0
    ensures v >= Midpoint ==> Stretch(v, gain) >= v
    ensures v <= Midpoint ==> Stretch(v, gain) <= v
  {
    var d := v - Midpoint;
    assert d * gain == d + d * (gain - 1.0);
    if d >= 0.0 { assert d * (gain - 1.0) >= 0.0; }
    else { assert d * (gain - 1.0) <= 0.0; }
  }

  /** With a gain of at least 1, the stretch moves every byte at or above mid-grey up
      (or keeps it) without crossing mid-grey. */
  lemma ContrastBrightens(v: Byte, gain: real)
    requires gain >= 1.0 && v >= 128
    ensures 128 <= v <= ContrastChannel(v as real, gain)
  {
    var x := Stretch(v as real, gain);
    StretchAwayFromMidpoint(v as real, gain);
    assert x >= v as real;
    var c := Clamp(x, 0.0, 255.0);
    assert c >= v as real by {
      if x <= 255.0 { assert c == x; } else { assert c == 255.0; }
    }
    StoreByteMonotone(v as real, c);
    StoreByteOfByte(v);
    assert ContrastChannel(v as real, gain) == StoreByte(c);
  }

  /** ... and every byte at or below mid-grey down (or keeps it). */
  lemma ContrastDarkens(v: Byte, gain: real)
    requires gain >= 1.0 && v <= 128
    ensures ContrastChannel(v as real, gain) <= v <= 128
  {
    var x := Stretch(v as real, gain);
    StretchAwayFromMidpoint(v as real, gain);
    assert x <= v as real;
    var c := Clamp(x, 0.0, 255.0);
    assert c <= v as real by {
      if x >= 0.0 { assert c == x; } else { assert c == 0.0; }
    }
    StoreByteMonotone(c, v as real);
    StoreByteOfByte(v);
    assert ContrastChannel(v as real, gain) == StoreByte(c);
  }

  lemma ContrastMonotone(v: real, w: real, gain: real)
    requires v <= w && gain >= 0.0
    ensures ContrastChannel(v, gain) <= ContrastChannel(w, gain)
  {
    assert (v - Midpoint) * gain <= (w - Midpoint) * gain;
    StoreByteMonotone(Clamp(Stretch(v, gain), 0.0, 255.0), Clamp(Stretch(w, gain), 0.0, 255.0));
  }

  /** The four bytes of the pixel starting at a multiple of 4 are its R, G, B and alpha. */
  lemma PixelOffsets(i: nat)
    requires i % 4 == 0
    ensures (i + 1) % 4 == 1 && (i + 2) % 4 == 2 && (i + 3) % 4 == 3
  {
  }

  /** What a contrast pass leaves in the buffer: the R, G and B bytes of each 4-byte pixel
      stretched, the alpha byte as it was. */
  ghost predicate ContrastApplied(before: seq<Byte>, after: seq<Byte>, gain: real)
  {
    |after| == |before| &&
    forall k :: 0 <= k < |before| ==>
      after[k] == if k % 4 == 3 then before[k] else ContrastChannel(before[k] as real, gain)
  }

  /** The stride-4 loop `for (let i = 0; i < data.length; i += 4)` that rewrites
      `data[i]`, `data[i + 1]` and `data[i + 2]` in place. Image data always holds
      whole pixels. */
  method EnhanceContrast(data: array<Byte>)
    requires data.Length % 4 == 0
    modifies data
    ensures ContrastApplied(old(data[..]), data[..], ContrastGain)
  {
    var i := 0;
    while i < data.Length
      invariant 0 <= i <= data.Length && i % 4 == 0
      invariant forall k :: 0 <= k < i ==>
        data[k] == if k % 4 == 3 then old(data[k]) else ContrastChannel(old(data[k]) as real, ContrastGain)
      invariant forall k :: i <= k < data.Length ==> data[k] == old(data[k])
    {
      data[i] := ContrastChannel(data[i] as real, ContrastGain);
      data[i + 1] := ContrastChannel(data[i + 1] as real, ContrastGain);
      data[i + 2] := ContrastChannel(data[i + 2] as real, ContrastGain);
      PixelOffsets(i);
      i := i + 4;
    }
  }
}
