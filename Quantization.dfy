/** Per-sample quantisation of normalised samples and the packing of the
    quantised values into the data section of a WAVE file.

    A sample is an exact real number. The source multiplies a float by 127.0
    or 32767.0 and converts with `to_i`, which truncates toward zero; the
    rounding of the float product itself is not modelled. No clamping is
    done: samples outside [-1, 1] give values that wrap when packed. */
module Quantization {
  import opened LittleEndian

  /** Conversion toward zero, as Ruby's `Float#to_i`. */
  function Trunc(x: real): (r: int)
    ensures 0.0 <= x ==> r as real <= x < r as real + 1.0
    ensures x < 0.0 ==> r as real - 1.0 < x <= r as real
  {
    if x >= 0.0 then x.Floor else -((-x).Floor)
  }

  /** An 8-bit sample is stored unsigned, offset by 127. */
  function Quantize8(s: real): (q: int)
    ensures -1.0 <= s <= 1.0 ==> 0 <= q <= 254
    ensures s >= 0.0 ==> q >= 127
    ensures s <= 0.0 ==> q <= 127
  {
    Trunc(s * 127.0) + 127
  }

  /** A 16-bit sample is stored signed. */
  function Quantize16(s: real): (q: int)
    ensures -1.0 <= s <= 1.0 ==> -32767 <= q <= 32767
    ensures s >= 0.0 ==> q >= 0
    ensures s <= 0.0 ==> q <= 0
  {
    Trunc(s * 32767.0)
  }

  /** `sample_data.map { |s| (s * 127.0).to_i + 127 }` */
  function QuantizeAll8(samples: seq<real>): (q: seq<int>)
    ensures |q| == |samples|
    ensures Normalised(samples) ==> forall i :: 0 <= i < |q| ==> 0 <= q[i] <= 254
  {
    seq(|samples|, i requires 0 <= i < |samples| => Quantize8(samples[i]))
  }

  /** `sample_data.map { |s| (s * 32767.0).to_i }` */
  function QuantizeAll16(samples: seq<real>): (q: seq<int>)
    ensures |q| == |samples|
    ensures Normalised(samples) ==> forall i :: 0 <= i < |q| ==> -32767 <= q[i] <= 32767
  {
    seq(|samples|, i requires 0 <= i < |samples| => Quantize16(samples[i]))
  }

  /** The quantised integers as they are stored back into the sample list. */
  function AsReals(q: seq<int>): (r: seq<real>)
    ensures |r| == |q|
    ensures forall i :: 0 <= i < |r| ==> r[i].Floor == q[i] && r[i] == r[i].Floor as real
  {
    seq(|q|, i requires 0 <= i < |q| => q[i] as real)
  }

  /** `pack("C*")`: one byte per value, its low 8 bits. */
  function PackBytes(q: seq<int>): (bs: seq<int>)
    ensures |bs| == |q| && AllBytes(bs)
  {
    seq(|q|, i requires 0 <= i < |q| => q[i] % 256)
  }

  /** `pack("v*")`: two little-endian bytes per value, its low 16 bits. */
  function PackShorts(q: seq<int>): (bs: seq<int>)
    ensures |bs| == 2 * |q| && AllBytes(bs)
  {
    if q == [] then [] else U16(q[0]) + PackShorts(q[1..])
  }

  /** Reads a "v*"-packed byte string back as signed 16-bit values. */
  function UnpackShorts(bs: seq<int>): (q: seq<int>)
    requires |bs| % 2 == 0 && AllBytes(bs)
    decreases |bs|
  {
    if bs == [] then [] else [DecodeS16(bs[..2])] + UnpackShorts(bs[2..])
  }

  predicate InShortRange(q: seq<int>) {
    forall i :: 0 <= i < |q| ==> -32768 <= q[i] < 32768
  }

  predicate Normalised(samples: seq<real>) {
    forall i :: 0 <= i < |samples| ==> -1.0 <= samples[i] <= 1.0
  }

  /** Value `i` of a "v*" packing sits in bytes 2i and 2i+1. */
  lemma {:induction false} PackShortsAt(q: seq<int>, i: int)
    requires 0 <= i < |q|
    ensures PackShorts(q)[2 * i .. 2 * i + 2] == U16(q[i])
  {
    var rest := PackShorts(q[1..]);
    assert PackShorts(q) == U16(q[0]) + rest;
    if i > 0 {
      PackShortsAt(q[1..], i - 1);
      assert PackShorts(q)[2 * i .. 2 * i + 2] == rest[2 * (i - 1) .. 2 * (i - 1) + 2];
    }
  }

  /** Packing signed 16-bit values with "v*" and reading them back as two's
      complement restores them. */
  lemma {:induction false} UnpackPackShorts(q: seq<int>)
    requires InShortRange(q)
    ensures UnpackShorts(PackShorts(q)) == q
  {
    if q != [] {
      var bs := PackShorts(q);
      assert bs[..2] == U16(q[0]);
      assert bs[2..] == PackShorts(q[1..]);
      S16RoundTrip(q[0]);
      UnpackPackShorts(q[1..]);
    }
  }

  /** For normalised samples the 8-bit quantiser never leaves a byte, so
      "C*" packing stores each quantised value unchanged. */
  lemma PackBytesNormalised(samples: seq<real>)
    requires Normalised(samples)
    ensures PackBytes(QuantizeAll8(samples)) == QuantizeAll8(samples)
    ensures AllBytes(PackBytes(QuantizeAll8(samples)))
  {
  }

  /** Normalised samples quantise into the signed 16-bit range. */
  lemma QuantizeAll16Normalised(samples: seq<real>)
    requires Normalised(samples)
    ensures InShortRange(QuantizeAll16(samples))
  {
  }

  /** The end points and the midpoint of the normalised range at 8 bits. */
  lemma Quantize8Landmarks()
    ensures Quantize8(0.0) == 127
    ensures Quantize8(1.0) == 254
    ensures Quantize8(-1.0) == 0
  {
  }

  /** The end points and the midpoint at 16 bits: -1 maps to -32767, so
      -32768 is never produced from a normalised sample. */
  lemma Quantize16Landmarks()
    ensures Quantize16(0.0) == 0
    ensures Quantize16(1.0) == 32767
    ensures Quantize16(-1.0) == -32767
  {
  }

  /** Re-quantising an already quantised 8-bit value is not the identity:
      a full-scale sample stored as 254 comes back as 129 after a second
      8-bit quantisation and packing. */
  lemma Requantize8Differs()
    ensures Quantize8(1.0) % 256 == 254
    ensures Quantize8(Quantize8(1.0) as real) % 256 == 129
  {
    assert Quantize8(1.0) == 254;
    assert Trunc(254.0 * 127.0) == 32258;
  }
}
