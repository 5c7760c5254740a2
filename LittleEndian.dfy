/** Little-endian packing of integers into bytes, the way Ruby's
    `Array#pack` directives "v" and "V" do it: the low 16 or 32 bits
    of the integer's two's complement representation, least significant byte
    first. Integers that do not fit wrap around silently. */
module LittleEndian {

  /** 256^n, one more than the largest unsigned n-byte value. */
  function Pow256(n: nat): (r: nat)
    ensures r >= 1
  {
    if n == 0 then 1 else 256 * Pow256(n - 1)
  }

  predicate IsByte(b: int) {
    0 <= b < 256
  }

  predicate AllBytes(bs: seq<int>) {
    forall i :: 0 <= i < |bs| ==> IsByte(bs[i])
  }

  /** The low `n` bytes of `x`, least significant first. */
  function Encode(x: int, n: nat): (r: seq<int>)
    ensures |r| == n && AllBytes(r)
    decreases n
  {
    if n == 0 then [] else [x % 256] + Encode(x / 256, n - 1)
  }

  /** `[x].pack("v")`: an unsigned 16-bit little-endian field. */
  function U16(x: int): (r: seq<int>)
    ensures |r| == 2 && AllBytes(r)
  {
    [x % 256, (x / 0x100) % 256]
  }

  /** `[x].pack("V")`: an unsigned 32-bit little-endian field. */
  function U32(x: int): (r: seq<int>)
    ensures |r| == 4 && AllBytes(r)
  {
    [x % 256, (x / 0x100) % 256, (x / 0x1_0000) % 256, (x / 0x100_0000) % 256]
  }

  /** The 16- and 32-bit fields are the general packing at widths 2 and 4. */
  lemma FieldsAreEncodings(x: int)
    ensures U16(x) == Encode(x, 2)
    ensures U32(x) == Encode(x, 4)
  {
    DivDiv(x, 0x100, 0x100);
    DivDiv(x, 0x1_0000, 0x100);
  }

  lemma DivDiv(x: int, a: int, b: int)
    requires a > 0 && b > 0
    ensures x / a / b == x / (a * b)
  {
    var q, r := x / a, x % a;
    var q2, r2 := q / b, q % b;
    assert x == (a * b) * q2 + (a * r2 + r) by {
      assert x == a * q + r;
      assert a * q == a * (b * q2) + a * r2;
      assert a * (b * q2) == (a * b) * q2;
    }
    assert a * r2 + r < a * b by {
      MulMonotone(a, r2, b - 1);
    }
    DivModOfSplit(x, a * b, q2, a * r2 + r);
  }

  /** The unsigned value of a little-endian byte string (the reader's side). */
  function Decode(bs: seq<int>): int {
    if bs == [] then 0 else bs[0] + 256 * Decode(bs[1..])
  }

  /** A signed 16-bit little-endian field read back as two's complement. */
  function DecodeS16(bs: seq<int>): (v: int)
    requires |bs| == 2 && AllBytes(bs)
    ensures -32768 <= v < 32768
  {
    DecodeBounds(bs);
    var u := Decode(bs);
    if u >= 32768 then u - 65536 else u
  }

  /** Division and remainder are determined by any split `x == m * q + c`
      with `0 <= c < m`. */
  lemma DivModOfSplit(x: int, m: int, q: int, c: int)
    requires m > 0 && 0 <= c < m && x == m * q + c
    ensures x / m == q && x % m == c
  {
    var q', c' := x / m, x % m;
    assert x == m * q' + c';
    if q' > q {
      assert m * q' >= m * (q + 1) by { MulMonotone(m, q + 1, q'); }
      assert false;
    } else if q' < q {
      assert m * q >= m * (q' + 1) by { MulMonotone(m, q' + 1, q); }
      assert false;
    }
  }

  lemma MulMonotone(m: int, a: int, b: int)
    requires m > 0 && a <= b
    ensures m * a <= m * b
  {
    assert m * b - m * a == m * (b - a);
  }

  lemma {:induction false} DecodeBounds(bs: seq<int>)
    requires AllBytes(bs)
    ensures 0 <= Decode(bs) < Pow256(|bs|)
  {
    if bs != [] {
      DecodeBounds(bs[1..]);
      assert Decode(bs) <= 255 + 256 * (Pow256(|bs| - 1) - 1);
    }
  }

  /** Packing then reading back gives the integer modulo 256^n: the field
      keeps exactly the low `n` bytes. */
  lemma {:induction false} DecodeEncode(x: int, n: nat)
    ensures Decode(Encode(x, n)) == x % Pow256(n)
    decreases n
  {
    if n == 0 {
      assert x == 1 * x + 0;
      DivModOfSplit(x, 1, x, 0);
    } else {
      var p := Pow256(n - 1);
      var q, r := x / 256, x % 256;
      DecodeEncode(q, n - 1);
      var e := Encode(x, n);
      assert e[1..] == Encode(q, n - 1);
      assert Decode(e) == r + 256 * (q % p);
      var a, b := q / p, q % p;
      assert q == p * a + b;
      assert x == (256 * p) * a + (256 * b + r) by {
        assert x == 256 * q + r;
        assert 256 * q == 256 * (p * a) + 256 * b;
        assert 256 * (p * a) == (256 * p) * a;
      }
      assert 256 * b + r < 256 * p by {
        MulMonotone(256, b, p - 1);
      }
      DivModOfSplit(x, 256 * p, a, 256 * b + r);
    }
  }

  /** Packing reads the integer only modulo 256^n. */
  lemma {:induction false} EncodeWraps(x: int, k: int, n: nat)
    ensures Encode(x + k * Pow256(n), n) == Encode(x, n)
    decreases n
  {
    if n > 0 {
      var p := Pow256(n - 1);
      var y := x + k * Pow256(n);
      assert y == 256 * (x / 256 + k * p) + x % 256 by {
        assert k * Pow256(n) == 256 * (k * p);
      }
      DivModOfSplit(y, 256, x / 256 + k * p, x % 256);
      EncodeWraps(x / 256, k, n - 1);
    }
  }

  /** Bytes that were read by `Decode` are packed back to themselves. */
  lemma {:induction false} EncodeDecode(bs: seq<int>)
    requires AllBytes(bs)
    ensures Encode(Decode(bs), |bs|) == bs
  {
    if bs != [] {
      var d := Decode(bs[1..]);
      assert Decode(bs) == 256 * d + bs[0];
      DivModOfSplit(Decode(bs), 256, d, bs[0]);
      EncodeDecode(bs[1..]);
    }
  }

  /** A "V" field reads back as the packed integer modulo 2^32. */
  lemma DecodeU32(x: int)
    ensures Decode(U32(x)) == x % 0x1_0000_0000
  {
    FieldsAreEncodings(x);
    DecodeEncode(x, 4);
    assert Pow256(4) == 0x1_0000_0000;
  }

  /** A "v" field reads back as the packed integer modulo 2^16. */
  lemma DecodeU16(x: int)
    ensures Decode(U16(x)) == x % 0x1_0000
  {
    FieldsAreEncodings(x);
    DecodeEncode(x, 2);
    assert Pow256(2) == 0x1_0000;
  }

  /** A signed 16-bit value packed with "v" reads back unchanged as two's
      complement. */
  lemma S16RoundTrip(v: int)
    requires -32768 <= v < 32768
    ensures DecodeS16(U16(v)) == v
  {
    FieldsAreEncodings(v);
    DecodeEncode(v, 2);
    assert Pow256(2) == 65536;
    if v < 0 {
      DivModOfSplit(v, 65536, -1, v + 65536);
    } else {
      DivModOfSplit(v, 65536, 0, v);
    }
  }
}
