/**
 * Fixed-width big-endian encoding of unsigned integers, as produced by
 * `encode_packed` for `NumberWithShift(_, TakeLastXBytes(bits))`: the value's
 * low `8 * width` bits, most significant byte first.
 */
module BigEndian {
  import opened Eth
  import opened Arith

  /** The low `width` bytes of `n`, most significant first. */
  function Encode(n: nat, width: nat): (r: Bytes)
    ensures |r| == width
  {
    if width == 0 then [] else Encode(n / 256, width - 1) + [n % 256]
  }

  /** The unsigned integer whose big-endian bytes are `s`. */
  function Decode(s: Bytes): (r: nat)
    ensures r < Pow(256, |s|)
  {
    if |s| == 0 then 0
    else
      var hi := Decode(s[..|s| - 1]);
      assert hi <= Pow(256, |s| - 1) - 1;
      hi * 256 + s[|s| - 1]
  }

  lemma DivMod256(n: nat, m: nat)
    requires m > 0
    ensures (n / 256) % m * 256 + n % 256 == n % (m * 256)
  {
    var q, r := n / 256, n % 256;
    var qq, qr := q / m, q % m;
    assert n == q * 256 + r;
    assert q == qq * m + qr;
    assert q * 256 == qq * (m * 256) + qr * 256;
    assert 0 <= qr * 256 + r < m * 256 by {
      assert qr <= m - 1;
      assert qr * 256 <= (m - 1) * 256;
    }
    DivModUnique(n, m * 256, qq, qr * 256 + r);
  }

  /** Decoding an encoding gives back the value modulo `256^width`. */
  lemma {:induction false} DecodeEncode(n: nat, width: nat)
    ensures Decode(Encode(n, width)) == n % Pow(256, width)
  {
    if width > 0 {
      var e := Encode(n, width);
      assert e[..width - 1] == Encode(n / 256, width - 1);
      DecodeEncode(n / 256, width - 1);
      DivMod256(n, Pow(256, width - 1));
    }
  }

  /** A value that fits in `width` bytes survives the round trip unchanged. */
  lemma RoundTrip(n: nat, width: nat)
    requires n < Pow(256, width)
    ensures Decode(Encode(n, width)) == n
  {
    DecodeEncode(n, width);
  }

  /** Encoding the decoded value of `s` at its own width gives back `s`. */
  lemma {:induction false} EncodeDecode(s: Bytes)
    ensures Encode(Decode(s), |s|) == s
  {
    if |s| > 0 {
      var init := s[..|s| - 1];
      var d := Decode(s);
      assert d / 256 == Decode(init);
      assert d % 256 == s[|s| - 1];
      EncodeDecode(init);
      assert s == init + [s[|s| - 1]];
    }
  }

  lemma {:induction false} PowAdd(b: nat, m: nat, n: nat)
    ensures Pow(b, m + n) == Pow(b, m) * Pow(b, n)
  {
    if m > 0 {
      PowAdd(b, m - 1, n);
      assert Pow(b, m + n) == b * Pow(b, m - 1 + n);
    }
  }

  /** The two widths the calldata uses: 8 bytes is 64 bits, 32 bytes is 256 bits. */
  lemma PowWidths()
    ensures Pow(256, 8) == TWO_64 && Pow(256, 32) == TWO_256
  {
    assert Pow(256, 2) == 0x1_0000;
    PowAdd(256, 2, 2);
    assert Pow(256, 4) == 0x1_0000_0000;
    PowAdd(256, 4, 4);
    assert Pow(256, 8) == 0x1_0000_0000_0000_0000;
    PowAdd(256, 8, 8);
    assert Pow(256, 16) == 0x1_0000_0000_0000_0000_0000_0000_0000_0000;
    PowAdd(256, 16, 16);
  }
}
