/**
 The BIT STRING contents codec of asn1/codec.go (sections 8.6 and 11.2.1 of ITU-T
 X.690): an octet counting the unused bits, then the bits, most significant first.
 */
module BitString {
  import opened Octets

  function Pow2(n: nat): (r: nat)
    ensures r >= 1
  {
    if n == 0 then 1 else 2 * Pow2(n - 1)
  }

  /** o & (1 << k) != 0: shift k times, test the lowest bit. */
  predicate LowBit(o: nat, k: nat) {
    if k == 0 then o % 2 == 1 else LowBit(o / 2, k - 1)
  }

  /** Bit j of an octet, counted from the most significant. */
  predicate BitOf(o: Octet, j: nat)
    requires j < 8
  {
    LowBit(o, 7 - j)
  }

  /** o | 1 << (7 - j). */
  function SetBit(o: Octet, j: nat): (r: int)
    requires j < 8
  {
    if BitOf(o, j) then o else o + Pow2(7 - j)
  }

  /** o & ((1 << u) - 1) == 0. */
  predicate LowBitsClear(o: nat, u: nat) {
    forall k :: 0 <= k < u ==> !LowBit(o, k)
  }

  /** The number a bit list denotes, most significant bit first. */
  function BitsValue(b: seq<bool>): (r: nat)
    ensures r < Pow2(|b|)
  {
    if b == [] then 0 else BitsValue(b[..|b| - 1]) * 2 + if b[|b| - 1] then 1 else 0
  }

  function OctetOf(b: seq<bool>): (r: Octet)
    requires |b| == 8
  {
    assert Pow2(8) == 256 by { assert Pow2(4) == 16; }
    BitsValue(b)
  }

  /** Eight bits from position i, padded with zeros. */
  function Window(bits: seq<bool>, i: nat): (r: seq<bool>)
    ensures |r| == 8 && forall j :: 0 <= j < 8 ==> r[j] == (i + j < |bits| && bits[i + j])
  {
    seq(8, j requires 0 <= j < 8 => i + j < |bits| && bits[i + j])
  }

  function UnusedBits(n: nat): (r: int)
    ensures 0 <= r < 8 && n + r == 8 * ((n + 7) / 8)
  {
    (8 - n % 8) % 8
  }

  /** The k-th octet of bits, counted from one. */
  function BodyOctet(bits: seq<bool>, k: nat): (r: Octet)
    requires k >= 1
  {
    OctetOf(Window(bits, 8 * (k - 1)))
  }

  /** The octet at position k of an encoding. */
  function PackedAt(bits: seq<bool>, k: nat): (r: Octet) {
    if k == 0 then UnusedBits(|bits|) else BodyOctet(bits, k)
  }

  function Pack(bits: seq<bool>): (r: seq<Octet>)
    ensures |r| == 1 + (|bits| + 7) / 8 && forall k :: 0 <= k < |r| ==> r[k] == PackedAt(bits, k)
  {
    seq(1 + (|bits| + 7) / 8, k requires 0 <= k => PackedAt(bits, k))
  }

  /** The checks of unmarshalBitString. */
  predicate Accepts(data: seq<Octet>) {
    && |data| > 0
    && data[0] <= 7
    && (|data| == 1 ==> data[0] == 0)
    && (|data| > 1 ==> LowBitsClear(data[|data| - 1], data[0]))
  }

  function BitLength(data: seq<Octet>): (r: nat)
    requires Accepts(data)
  {
    (|data| - 1) * 8 - data[0]
  }

  predicate BitIn(data: seq<Octet>, i: nat)
    requires 1 + i / 8 < |data|
  {
    BitOf(data[1 + i / 8], i % 8)
  }

  function Unpack(data: seq<Octet>): (r: Option<seq<bool>>)
    ensures r.Some? <==> Accepts(data)
    ensures r.Some? ==> |r.value| == BitLength(data) && forall i :: 0 <= i < |r.value| ==> r.value[i] == BitIn(data, i)
  {
    if !Accepts(data) then None
    else Some(seq(BitLength(data), i requires 0 <= i < BitLength(data) => BitIn(data, i)))
  }

  // ---- one octet ----

  lemma {:induction false} LowBitOfValue(b: seq<bool>, k: nat)
    requires k < |b|
    ensures LowBit(BitsValue(b), k) == b[|b| - 1 - k]
  {
    if k > 0 {
      LowBitOfValue(b[..|b| - 1], k - 1);
      assert BitsValue(b) / 2 == BitsValue(b[..|b| - 1]);
    }
  }

  lemma {:induction false} ValueOfLowBits(o: nat, b: seq<bool>)
    requires o < Pow2(|b|) && forall k :: 0 <= k < |b| ==> LowBit(o, k) == b[|b| - 1 - k]
    ensures BitsValue(b) == o
  {
    if b != [] {
      var c := b[..|b| - 1];
      forall k | 0 <= k < |c| ensures LowBit(o / 2, k) == c[|c| - 1 - k] {
        assert LowBit(o, k + 1) == b[|b| - 1 - (k + 1)];
      }
      ValueOfLowBits(o / 2, c);
      assert LowBit(o, 0) == b[|b| - 1];
    }
  }

  /** Setting one bit that is clear adds its weight. */
  lemma {:induction false} ValueSetBit(b: seq<bool>, j: nat)
    requires j < |b| && !b[j]
    ensures BitsValue(b[j := true]) == BitsValue(b) + Pow2(|b| - 1 - j)
  {
    var c := b[..|b| - 1];
    if j == |b| - 1 {
      assert b[j := true][..|b| - 1] == c;
    } else {
      assert b[j := true][..|b| - 1] == c[j := true];
      ValueSetBit(c, j);
    }
  }

  // ---- the two loops ----

  /** marshalBitString. */
  method MarshalBitString(bits: seq<bool>) returns (r: seq<Octet>)
    ensures r == Pack(bits)
  {
    hide BodyOctet, SetBit;
    if |bits| == 0 { return [0]; }
    var n := 1 + (|bits| + 7) / 8;
    var data := new Octet[n](_ => 0);
    data[0] := (8 - |bits| % 8) % 8;
    EmptyWindow();
    assert bits[..0] == [];
    for index := 0 to |bits|
      invariant data[0] == UnusedBits(|bits|)
      invariant forall k :: 1 <= k < n ==> data[k] == BodyOctet(bits[..index], k)
    {
      var at, j := 1 + index / 8, index % 8;
      PackStep(bits, index);
      if bits[index] {
        assert SetBit(data[at], j) == BodyOctet(bits[..index + 1], at);
        data[at] := SetBit(data[at], j);
      }
    }
    assert bits[..|bits|] == bits;
    return data[..];
  }

  lemma {:induction false} EmptyWindow()
    ensures forall k :: 1 <= k ==> BodyOctet([], k) == 0
  {
    forall k | 1 <= k ensures BodyOctet([], k) == 0 {
      ZeroBits(Window([], 8 * (k - 1)));
    }
  }

  lemma {:induction false} ZeroBits(b: seq<bool>)
    requires forall i :: 0 <= i < |b| ==> !b[i]
    ensures BitsValue(b) == 0
  {
    if b != [] { ZeroBits(b[..|b| - 1]); }
  }

  /** One more bit changes only the octet it falls into, by setting that bit. */
  lemma {:induction false} PackStep(bits: seq<bool>, index: nat)
    requires index < |bits|
    ensures forall k :: 1 <= k ==>
              BodyOctet(bits[..index + 1], k) ==
              if bits[index] && k == 1 + index / 8 then SetBit(BodyOctet(bits[..index], k), index % 8)
              else BodyOctet(bits[..index], k)
  {
    forall k | 1 <= k
      ensures BodyOctet(bits[..index + 1], k) ==
              if bits[index] && k == 1 + index / 8 then SetBit(BodyOctet(bits[..index], k), index % 8)
              else BodyOctet(bits[..index], k)
    {
      var w, v, j := Window(bits[..index], 8 * (k - 1)), Window(bits[..index + 1], 8 * (k - 1)), index % 8;
      if bits[index] && k == 1 + index / 8 {
        assert v == w[j := true] && !w[j];
        LowBitOfValue(w, 7 - j);
        ValueSetBit(w, j);
      } else {
        assert v == w;
      }
    }
  }

  /** unmarshalBitString. */
  method UnmarshalBitString(data: seq<Octet>) returns (r: Option<seq<bool>>)
    ensures r == Unpack(data)
  {
    hide LowBitsClear, BitOf;
    if |data| == 0 { return None; }
    var unusedBits := data[0];
    if unusedBits > 7 || (|data| == 1 && unusedBits != 0) { return None; }
    if |data| > 1 && !LowBitsClear(data[|data| - 1], unusedBits) { return None; }
    var bitLength := (|data| - 1) * 8 - unusedBits;
    var bits := new bool[bitLength];
    for index := 0 to bitLength
      invariant forall i :: 0 <= i < index ==> bits[i] == BitIn(data, i)
    {
      bits[index] := BitOf(data[1 + index / 8], index % 8);
    }
    assert bits[..] == Unpack(data).value;
    return Some(bits[..]);
  }

  // ---- the two are mutually inverse ----

  lemma {:induction false} PackAccepted(bits: seq<bool>)
    ensures Accepts(Pack(bits))
  {
    if bits != [] {
      var last, u := (|bits| + 7) / 8, UnusedBits(|bits|);
      var w := Window(bits, 8 * (last - 1));
      forall k | 0 <= k < u ensures !LowBit(BitsValue(w), k) {
        LowBitOfValue(w, k);
      }
      assert Pack(bits)[last] == OctetOf(w);
    }
  }

  /** Every bit list survives encoding and decoding. */
  lemma {:induction false} UnpackPack(bits: seq<bool>)
    ensures Unpack(Pack(bits)) == Some(bits)
  {
    PackAccepted(bits);
    var p := Pack(bits);
    assert BitLength(p) == |bits|;
    forall i | 0 <= i < |bits| ensures BitIn(p, i) == bits[i] {
      var w := Window(bits, 8 * (i / 8));
      LowBitOfValue(w, 7 - i % 8);
      assert p[1 + i / 8] == OctetOf(w);
    }
    assert Unpack(p).value == bits;
  }

  /** Every accepted octet string is the encoding of the bits it decodes to. */
  lemma {:induction false} PackUnpack(data: seq<Octet>)
    requires Accepts(data)
    ensures Pack(Unpack(data).value) == data
  {
    var bits := Unpack(data).value;
    forall k | 0 <= k < |data| ensures PackedAt(bits, k) == data[k] {
      if k > 0 {
        PackedOctet(data, k);
      }
    }
  }

  lemma {:induction false} PackedOctet(data: seq<Octet>, k: nat)
    requires Accepts(data) && 1 <= k < |data|
    ensures OctetOf(Window(Unpack(data).value, 8 * (k - 1))) == data[k]
  {
    var bits := Unpack(data).value;
    var w, o := Window(bits, 8 * (k - 1)), data[k];
    forall i | 0 <= i < 8 ensures LowBit(o, i) == w[7 - i] {
      var at := 8 * (k - 1) + (7 - i);
      if at < |bits| {
        assert bits[at] == BitIn(data, at);
        assert at / 8 == k - 1 && at % 8 == 7 - i;
      }
    }
    assert Pow2(8) == 256 by { assert Pow2(4) == 16; }
    ValueOfLowBits(o, w);
  }
}
