/** lib0 variable-length integers: base 128, little-endian, at most eight bytes and 53 bits. */
module VarUint {
  import opened Prelude

  const MAX_SAFE_INTEGER: nat := 0x1F_FFFF_FFFF_FFFF

  datatype Decoded = Decoded(value: nat, next: nat)

  /** The digits of `v`, low group first; every group but the last carries the continuation bit. */
  function Encode(v: nat): seq<Byte> {
    if v > 0x7F then [v % 128 + 128] + Encode(v / 128) else [v]
  }

  /** Read groups up to the first without a continuation bit, within a budget of bytes. */
  function Scan(data: seq<Byte>, budget: nat): Option<(nat, nat)> {
    if data == [] || budget == 0 then None
    else if data[0] < 0x80 then Some((data[0], 1))
    else
      match Scan(data[1..], budget - 1)
      case None => None
      case Some((v, n)) => Some((data[0] - 128 + 128 * v, n + 1))
  }

  /** The value at `offset` and the offset behind it; None for a ProtocolError. */
  function Decode(data: seq<Byte>, offset: nat): Option<Decoded> {
    if offset > |data| then None
    else
      match Scan(data[offset..], 8)
      case None => None
      case Some((v, n)) => if v > MAX_SAFE_INTEGER then None else Some(Decoded(v, offset + n))
  }

  /** `encode_var_uint`; None for a value outside the safe range. */
  method EncodeVarUint(value: int) returns (r: Option<seq<Byte>>)
    ensures r == if 0 <= value <= MAX_SAFE_INTEGER then Some(Encode(value)) else None
  {
    if value < 0 || value > MAX_SAFE_INTEGER {
      return None;
    }
    var encoded: seq<Byte> := [];
    var rest: nat := value;
    while rest > 0x7F
      invariant encoded + Encode(rest) == Encode(value)
      decreases rest
    {
      assert encoded + ([rest % 128 + 128] + Encode(rest / 128)) == (encoded + [rest % 128 + 128]) + Encode(rest / 128);
      encoded := encoded + [rest % 128 + 128];
      rest := rest / 128;
    }
    return Some(encoded + [rest]);
  }

  function Pow128(n: nat): (p: nat)
    ensures p > 0
  {
    if n == 0 then 1 else 128 * Pow128(n - 1)
  }

  /** The decoder's partial sum and the groups still to come make up the whole. */
  ghost predicate Pending(whole: Option<(nat, nat)>, rest: Option<(nat, nat)>, value: nat, scale: nat, read: nat) {
    && (whole.None? <==> rest.None?)
    && (rest.Some? ==> whole.value == (value + scale * rest.value.0, read + rest.value.1))
  }

  lemma PendingStep(whole: Option<(nat, nat)>, data: seq<Byte>, budget: nat, value: nat, scale: nat, read: nat)
    requires data != [] && budget > 0
    requires Pending(whole, Scan(data, budget), value, scale, read)
    ensures var value' := value + (data[0] % 128) * scale;
            if data[0] < 0x80 then whole == Some((value', read + 1))
            else Pending(whole, Scan(data[1..], budget - 1), value', scale * 128, read + 1)
    ensures whole.Some? ==> value + (data[0] % 128) * scale <= whole.value.0
  {
    var digit: nat := data[0] % 128;
    if data[0] >= 0x80 && Scan(data[1..], budget - 1).Some? {
      var v := Scan(data[1..], budget - 1).value.0;
      assert scale * (digit + 128 * v) == digit * scale + (scale * 128) * v by {
        assert scale * (digit + 128 * v) == scale * digit + scale * (128 * v);
        assert (scale * 128) * v == scale * (128 * v);
      }
      assert (scale * 128) * v >= 0;
    }
  }

  /**
   `decode_var_uint`. The loop rejects as soon as the partial sum leaves the
   safe range, or a ninth byte is read; neither ever rejects what `Decode`
   accepts.
   */
  method DecodeVarUint(data: seq<Byte>, offset: int) returns (r: Option<Decoded>)
    ensures r == if offset < 0 then None else Decode(data, offset)
  {
    if offset < 0 || offset > |data| {
      return None;
    }
    var value: nat := 0;
    var multiplier: nat := 1;
    var bytesRead := 0;
    var at: nat := offset;
    ghost var whole := Scan(data[offset..], 8);
    while at < |data|
      invariant offset <= at <= |data| && bytesRead == at - offset <= 8
      invariant value <= MAX_SAFE_INTEGER
      invariant Pending(whole, Scan(data[at..], 8 - bytesRead), value, multiplier, bytesRead)
    {
      if bytesRead + 1 > 8 {
        return None;
      }
      PendingStep(whole, data[at..], 8 - bytesRead, value, multiplier, bytesRead);
      assert data[at..][1..] == data[at + 1..];
      bytesRead := bytesRead + 1;
      var byte := data[at];
      at := at + 1;
      value := value + (byte % 128) * multiplier;
      if value > MAX_SAFE_INTEGER {
        return None;
      }
      if byte < 0x80 {
        return Some(Decoded(value, at));
      }
      multiplier := multiplier * 128;
    }
    return None;
  }

  // ---- Properties ----

  lemma {:induction false} EncodeLength(v: nat, n: nat)
    requires n > 0 && v < Pow128(n)
    ensures 1 <= |Encode(v)| <= n
    decreases n
  {
    if v > 0x7F {
      assert v / 128 < Pow128(n - 1);
      EncodeLength(v / 128, n - 1);
    }
  }

  /** Every safe integer takes one to eight bytes, so the decoder's cutoff never rejects encoder output. */
  lemma EncodingFitsEightBytes(v: nat)
    requires v <= MAX_SAFE_INTEGER
    ensures 1 <= |Encode(v)| <= 8
  {
    assert Pow128(8) == 128 * Pow128(7) && Pow128(7) == 128 * Pow128(6) && Pow128(6) == 128 * Pow128(5);
    assert Pow128(5) == 128 * Pow128(4) && Pow128(4) == 128 * Pow128(3) && Pow128(3) == 128 * Pow128(2);
    assert Pow128(2) == 128 * Pow128(1) && Pow128(1) == 128;
    EncodeLength(v, 8);
  }

  lemma {:induction false} ScanEncoded(v: nat, post: seq<Byte>, budget: nat)
    requires |Encode(v)| <= budget
    ensures Scan(Encode(v) + post, budget) == Some((v, |Encode(v)|))
    decreases v
  {
    if v > 0x7F {
      ScanEncoded(v / 128, post, budget - 1);
      assert (Encode(v) + post)[1..] == Encode(v / 128) + post;
    }
  }

  /** Decoding an encoded value inside any surrounding bytes returns the value and the offset behind it. */
  lemma DecodeEncoded(pre: seq<Byte>, v: nat, post: seq<Byte>)
    requires v <= MAX_SAFE_INTEGER
    ensures Decode(pre + Encode(v) + post, |pre|) == Some(Decoded(v, |pre| + |Encode(v)|))
  {
    EncodingFitsEightBytes(v);
    assert (pre + Encode(v) + post)[|pre|..] == Encode(v) + post;
    ScanEncoded(v, post, 8);
  }

  lemma {:induction false} ScanBounds(data: seq<Byte>, budget: nat)
    requires Scan(data, budget).Some?
    ensures 1 <= Scan(data, budget).value.1 <= |data| && Scan(data, budget).value.1 <= budget
  {
    if data[0] >= 0x80 {
      ScanBounds(data[1..], budget - 1);
    }
  }

  /** Re-encoding reproduces what was read exactly when it was minimal. */
  lemma {:induction false} ScanCanonicalIff(data: seq<Byte>, budget: nat)
    requires Scan(data, budget).Some?
    requires 1 <= Scan(data, budget).value.1 <= |data|
    ensures var (v, n) := Scan(data, budget).value;
            (Encode(v) == data[..n] <==> n == 1 || data[n - 1] != 0) && (v == 0 <==> Encode(v) == [0])
    ensures var (v, n) := Scan(data, budget).value; n > 1 && data[n - 1] != 0 ==> v > 0x7F
  {
    if data[0] >= 0x80 {
      ScanBounds(data[1..], budget - 1);
      ScanCanonicalIff(data[1..], budget - 1);
      var (w, m) := Scan(data[1..], budget - 1).value;
      var (v, n) := Scan(data, budget).value;
      assert v == data[0] - 128 + 128 * w && v / 128 == w && v % 128 == data[0] - 128;
      assert data[..n] == [data[0]] + data[1..][..m];
      if w > 0 {
        assert Encode(v) == [data[0]] + Encode(w);
        assert Encode(v)[1..] == Encode(w);
      } else {
        assert |Encode(v)| == 1;
      }
    }
  }

  /**
   For arbitrary bytes the decoder rejects, or returns a value in range from at
   most eight bytes of the frame; re-encoding it reproduces the bytes read if
   and only if one byte was read or the last one is not zero.
   */
  lemma DecodeIsExact(data: seq<Byte>, offset: nat)
    requires Decode(data, offset).Some?
    ensures var d := Decode(data, offset).value;
            && d.value <= MAX_SAFE_INTEGER
            && offset < d.next <= |data| && d.next - offset <= 8
            && (Encode(d.value) == data[offset..d.next] <==> d.next == offset + 1 || data[d.next - 1] != 0)
  {
    var d := Decode(data, offset).value;
    ScanBounds(data[offset..], 8);
    ScanCanonicalIff(data[offset..], 8);
    assert data[offset..][..d.next - offset] == data[offset..d.next];
  }

  lemma {:induction false} ScanExtends(data: seq<Byte>, ext: seq<Byte>, budget: nat)
    requires Scan(data, budget).Some?
    ensures Scan(data + ext, budget) == Scan(data, budget)
  {
    if data[0] >= 0x80 {
      ScanExtends(data[1..], ext, budget - 1);
      assert (data + ext)[1..] == data[1..] + ext;
    }
  }

  /** Bytes behind an integer never change how it is read. */
  lemma DecodeExtends(data: seq<Byte>, offset: nat, ext: seq<Byte>)
    requires Decode(data, offset).Some?
    ensures Decode(data + ext, offset) == Decode(data, offset)
    ensures offset < Decode(data, offset).value.next <= |data|
  {
    assert (data + ext)[offset..] == data[offset..] + ext;
    ScanExtends(data[offset..], ext, 8);
    ScanBounds(data[offset..], 8);
  }

  // ---- The format ----

  /** Byte `k` carries bits 7k to 7k + 6 of the value, and the continuation bit unless it is the last. */
  lemma {:induction false} EncodingIsLittleEndian(v: nat, k: nat)
    requires k < |Encode(v)|
    ensures Encode(v)[k] % 128 == v / Pow128(k) % 128
    ensures Encode(v)[k] >= 128 <==> k < |Encode(v)| - 1
    ensures k > 0 ==> v >= Pow128(k)
    decreases k
  {
    if k > 0 {
      EncodingIsLittleEndian(v / 128, k - 1);
      DivideTwice(v, Pow128(k - 1));
    }
  }

  lemma DivideTwice(v: nat, p: nat)
    requires p > 0
    ensures v / 128 / p == v / (128 * p)
    ensures v / 128 >= p ==> v >= 128 * p
  {
    var q, r := v / 128 / p, v / 128 % p;
    assert v / 128 == p * q + r;
    var low := v % 128;
    assert v == 128 * (v / 128) + low;
    var d := 128 * p;
    assert v == d * q + (128 * r + low) by {
      assert 128 * (p * q) == d * q;
    }
    assert 0 <= 128 * r + low < d;
    Quotient(v, d, q, 128 * r + low);
  }

  lemma Quotient(v: nat, d: nat, q: nat, r: nat)
    requires v == d * q + r && r < d
    ensures v / d == q
  {
    var q' := v / d;
    assert v == d * q' + v % d;
    if q' < q {
      NextMultiple(d, q', q);
    } else if q' > q {
      NextMultiple(d, q, q');
    }
  }

  lemma NextMultiple(d: nat, a: nat, b: nat)
    requires a < b
    ensures d * a + d <= d * b
  {
    assert d * b == d * a + d * (b - a);
    assert d * (b - a) == d + d * (b - a - 1);
  }
}
