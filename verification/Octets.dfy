/**
 Octet strings and the number representations the protocol writes into them.
 Go strings and byte slices are both sequences of octets here.
 */
module Octets {

  datatype Option<+T> = None | Some(value: T) {
    predicate IsFailure() { None? }
    function PropagateFailure<U>(): Option<U> requires None? { None }
    function Extract(): T requires Some? { value }
  }

  type Octet = x: int | 0 <= x < 256
  type Text = seq<Octet>

  /** The range of a Go int64, and of an int on a 64-bit platform. */
  const INT64_LIMIT := 0x8000_0000_0000_0000
  type Int64 = x: int | -0x8000_0000_0000_0000 <= x < 0x8000_0000_0000_0000

  /** The number a big-endian octet string denotes. */
  function FromBase(s: seq<Octet>): (r: nat) {
    if s == [] then 0 else FromBase(s[..|s| - 1]) * 256 + s[|s| - 1]
  }

  /** The shortest big-endian octet string of a number; zero takes one octet. */
  function BaseOctets(n: nat): (r: seq<Octet>)
    ensures |r| >= 1
  {
    if n < 256 then [n] else BaseOctets(n / 256) + [n % 256]
  }

  function Pow256(k: nat): (r: nat)
    ensures r >= 1
  {
    if k == 0 then 1 else 256 * Pow256(k - 1)
  }

  /** Big-endian, exactly k octets, high part dropped. */
  function FixedOctets(n: nat, k: nat): (r: seq<Octet>)
    ensures |r| == k
  {
    if k == 0 then [] else FixedOctets(n / 256, k - 1) + [n % 256]
  }

  lemma {:induction false} FromBaseOctets(n: nat)
    ensures FromBase(BaseOctets(n)) == n
  {
    if n >= 256 {
      FromBaseOctets(n / 256);
      assert BaseOctets(n)[..|BaseOctets(n)| - 1] == BaseOctets(n / 256);
    } else {
      assert BaseOctets(n)[..0] == [];
    }
  }

  lemma {:induction false} FromFixedOctets(n: nat, k: nat)
    requires n < Pow256(k)
    ensures FromBase(FixedOctets(n, k)) == n
  {
    if k > 0 {
      FromFixedOctets(n / 256, k - 1);
      assert FixedOctets(n, k)[..k - 1] == FixedOctets(n / 256, k - 1);
    }
  }

  /** A number needs at most k octets exactly when it is below 256^k. */
  lemma {:induction false} BaseOctetsSize(n: nat, k: nat)
    requires k >= 1
    ensures |BaseOctets(n)| <= k <==> n < Pow256(k)
    decreases k
  {
    assert Pow256(k) == 256 * Pow256(k - 1);
    if n >= 256 {
      if k == 1 {
        assert Pow256(0) == 1;
      } else {
        BaseOctetsSize(n / 256, k - 1);
      }
    }
  }

  lemma {:induction false} Powers()
    ensures Pow256(4) == 0x1_0000_0000 && Pow256(8) == 0x1_0000_0000_0000_0000
  {
    assert Pow256(2) == 0x1_0000;
    assert Pow256(4) == 256 * (256 * Pow256(2));
    assert Pow256(6) == 256 * (256 * Pow256(4));
    assert Pow256(8) == 256 * (256 * Pow256(6));
  }

  // ---- INTEGER contents: section 8.3 of ITU-T X.690, two's complement, shortest form ----

  function IntOctets(v: int): (r: seq<Octet>)
    ensures |r| >= 1
    decreases if v < 0 then -v else v
  {
    if -128 <= v < 128 then [v % 256] else IntOctets(v / 256) + [v % 256]
  }

  function IntValue(s: seq<Octet>): (v: int)
    requires |s| >= 1
  {
    if |s| == 1 then (if s[0] < 128 then s[0] else s[0] - 256)
    else IntValue(s[..|s| - 1]) * 256 + s[|s| - 1]
  }

  lemma {:induction false} IntRoundTrip(v: int)
    ensures IntValue(IntOctets(v)) == v
    decreases if v < 0 then -v else v
  {
    if !(-128 <= v < 128) {
      var s := IntOctets(v / 256);
      IntRoundTrip(v / 256);
      assert IntOctets(v) == s + [v % 256];
      hide IntOctets;
      assert (s + [v % 256])[..|s|] == s;
    }
  }

  // ---- hexadecimal text ----

  function HexDigit(n: int): (c: Octet)
    requires 0 <= n < 16
  {
    if n < 10 then 48 + n else 87 + n
  }

  function DigitValue(c: Octet): (r: Option<int>)
    ensures r.Some? ==> 0 <= r.value < 16
  {
    if 48 <= c <= 57 then Some(c - 48)
    else if 97 <= c <= 102 then Some(c - 87)
    else if 65 <= c <= 70 then Some(c - 55)
    else None
  }

  /** hex.EncodeToString, and %x. */
  function Hex(b: seq<Octet>): (r: Text)
    ensures |r| == 2 * |b|
  {
    if b == [] then [] else [HexDigit(b[0] / 16), HexDigit(b[0] % 16)] + Hex(b[1..])
  }

  /** hex.DecodeString: either letter case, even length. */
  function Unhex(t: Text): (r: Option<seq<Octet>>) {
    if t == [] then Some([])
    else if |t| == 1 then None
    else
      var hi :- DigitValue(t[0]);
      var lo :- DigitValue(t[1]);
      var rest :- Unhex(t[2..]);
      Some([hi * 16 + lo] + rest)
  }

  lemma {:induction false} UnhexHex(b: seq<Octet>)
    ensures Unhex(Hex(b)) == Some(b)
  {
    if b != [] {
      UnhexHex(b[1..]);
      assert Hex(b)[2..] == Hex(b[1..]);
      assert [b[0]] + b[1..] == b;
    }
  }
}
