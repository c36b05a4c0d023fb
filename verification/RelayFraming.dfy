/**
 The relay's own DER length writer, header reader and envelope (relay/relay.go), with the
 wrap-around of a 64-bit int written out.
 */
module RelayFraming {
  import opened Octets
  import opened Tlv

  const TWO64 := 0x1_0000_0000_0000_0000

  /** What is left of a number in a 64-bit int. */
  function Wrap64(x: int): (r: int)
    ensures -INT64_LIMIT <= r < INT64_LIMIT
  {
    var m := x % TWO64;
    if m < INT64_LIMIT then m else m - TWO64
  }

  lemma {:induction false} WrapStep(a: int, b: int)
    ensures Wrap64(Wrap64(a) * 256 + b) == Wrap64(a * 256 + b)
  {
    var q := (a - Wrap64(a)) / TWO64;
    assert a == Wrap64(a) + q * TWO64 by { assert a == a / TWO64 * TWO64 + a % TWO64; }
    var x := Wrap64(a) * 256 + b;
    assert a * 256 + b == x + q * 256 * TWO64;
    ModShift(x, q * 256);
  }

  lemma {:induction false} ModShift(x: int, q: int)
    ensures (x + q * TWO64) % TWO64 == x % TWO64
  {
  }

  /** Tag octets, the length as a 64-bit int, and where the contents start. */
  datatype Head = Head(tag: Tag, length: int, start: nat)

  /** tlvHeader: up to 127 length octets, of which a 64-bit int keeps the last eight. */
  function HeadOf(data: seq<Octet>): (r: Option<Head>)
    ensures r.Some? ==> r.value.start <= |data|
  {
    match ReadHeader(data, 0, 127)
    case None => None
    case Some(h) => Some(Head(data[..h.tagEnd], Wrap64(h.length), h.start))
  }

  method TlvHeader(data: seq<Octet>) returns (r: Option<Head>)
    ensures r == HeadOf(data)
  {
    if |data| == 0 { return None; }
    var index := 1;
    if data[0] % 32 == 31 {
      var more := true;
      while more
        invariant 1 <= index <= |data|
        invariant TagEnd(data, 0) == if more then TailEnd(data, index) else Some(index)
        decreases |data| - index, more
      {
        if index >= |data| { return None; }
        more := data[index] >= 128;
        index := index + 1;
      }
    }
    var tagEnd := index;
    assert TagEnd(data, 0) == Some(tagEnd);
    if index >= |data| { return None; }
    var first := data[index];
    index := index + 1;
    if first < 128 { return Some(Head(data[..tagEnd], first, index)); }
    var octets := first - 128;
    if octets == 0 { return None; }
    if octets > |data| - index { return None; }
    var length := 0;
    ghost var field := data[index..index + octets];
    for i := 0 to octets
      invariant length == Wrap64(FromBase(field[..i]))
    {
      assert field[..i + 1][..i] == field[..i] && field[i] == data[index + i];
      WrapStep(FromBase(field[..i]), data[index + i]);
      length := Wrap64(length * 256 + data[index + i]);
    }
    assert field[..octets] == field;
    return Some(Head(data[..tagEnd], length, index + octets));
  }

  function Reversed(s: seq<Octet>): (r: seq<Octet>)
  {
    if s == [] then [] else [s[|s| - 1]] + Reversed(s[..|s| - 1])
  }

  lemma {:induction false} ReversedIs(s: seq<Octet>, r: seq<Octet>)
    requires |r| == |s| && forall i :: 0 <= i < |s| ==> r[i] == s[|s| - 1 - i]
    ensures Reversed(s) == r
  {
    if s != [] {
      var n := |s| - 1;
      assert r == [s[n]] + r[1..];
      ReversedIs(s[..n], r[1..]);
    }
  }

  lemma {:induction false} ReversedAppend(s: seq<Octet>, o: Octet)
    ensures Reversed(s + [o]) == [o] + Reversed(s)
  {
    assert (s + [o])[..|s|] == s;
  }

  /** The octets still to be taken from a value. */
  function Pending(value: nat): (r: seq<Octet>) { if value > 0 then BaseOctets(value) else [] }

  lemma {:induction false} DivideStep(value: nat)
    requires value > 0
    ensures Pending(value) == Pending(value / 256) + [value % 256]
  {
  }

  lemma {:induction false} LengthSize(n: nat)
    requires n < INT64_LIMIT
    ensures |BaseOctets(n)| <= 8 && |DerLength(n)| <= 1 + 8
    ensures n >= 0x80 ==> DerLength(n) == [0x80 + |BaseOctets(n)|] + BaseOctets(n)
  {
    Powers();
    hide Pow256, BaseOctets;
    SliceLength(n);
  }

  /** The octets of a length, collected from the right in an array of eight. */
  method CollectOctets(length: int) returns (reversed: array<Octet>, count: nat)
    requires 0 < length < INT64_LIMIT
    ensures count <= reversed.Length && count == |BaseOctets(length)|
            && BaseOctets(length) == Reversed(reversed[..count])
  {
    LengthSize(length);
    CollectStart(length);
    hide *;
    reversed := new Octet[8](_ => 0);
    count := 0;
    var value: nat := length;
    ghost var done: seq<Octet> := [];
    while value > 0
      invariant reversed.Length == 8 && count <= 8 && |done| == count && reversed[..count] == done
      invariant Collected(BaseOctets(length), value, done)
      decreases value
    {
      CollectStep(BaseOctets(length), value, done);
      done := done + [value % 256];
      reversed[count] := value % 256;
      assert reversed[..count + 1] == reversed[..count] + [value % 256];
      count := count + 1;
      value := value / 256;
    }
    CollectEnd(BaseOctets(length), done);
  }

  /** What is still to come, then what is done, make up the whole. */
  predicate Collected(all: seq<Octet>, value: nat, done: seq<Octet>) {
    all == Pending(value) + Reversed(done) && |Reversed(done)| == |done|
  }

  lemma {:induction false} CollectStart(length: nat)
    requires length > 0
    ensures Collected(BaseOctets(length), length, [])
  {
  }

  lemma {:induction false} CollectStep(all: seq<Octet>, value: nat, done: seq<Octet>)
    requires Collected(all, value, done) && value > 0
    ensures Collected(all, value / 256, done + [value % 256]) && |done| < |all| && value / 256 < value
  {
    DivideStep(value);
    ReversedAppend(done, value % 256);
    hide Pending, Reversed;
  }

  lemma {:induction false} CollectEnd(all: seq<Octet>, done: seq<Octet>)
    requires Collected(all, 0, done)
    ensures all == Reversed(done) && |all| == |done|
  {
  }

  /** The collected octets, the last one first. */
  method ReverseOctets(reversed: array<Octet>, count: nat) returns (out: seq<Octet>)
    requires count <= reversed.Length
    ensures out == Reversed(reversed[..count])
  {
    hide Reversed;
    out := [];
    for index := 0 to count
      invariant |out| == index && forall i :: 0 <= i < index ==> out[i] == reversed[count - 1 - i]
    {
      out := out + [reversed[count - 1 - index]];
    }
    ReversedIs(reversed[..count], out);
  }

  /** encodeDERLength. */
  method EncodeDerLength(length: int) returns (out: seq<Octet>)
    requires 0 <= length < INT64_LIMIT
    ensures out == DerLength(length)
  {
    if length < 0x80 { return [length]; }
    LengthSize(length);
    hide *;
    var reversed, count := CollectOctets(length);
    var octets := ReverseOctets(reversed, count);
    out := [0x80 + count] + octets;
  }

  /**
   Reading a header written with the length writer returns the tag and the length, for every
   length below 2^63, which takes at most eight length octets.
   */
  lemma {:induction false} HeadRoundTrip(tag: Tag, n: nat, rest: seq<Octet>)
    requires TagOk(tag) && n < INT64_LIMIT
    ensures HeadOf(tag + DerLength(n) + rest) == Some(Head(tag, n, |tag| + |DerLength(n)|))
    ensures |DerLength(n)| <= 1 + 8
  {
    hide ReadHeader, BaseOctets, TagOk, DerLength, Wrap64;
    LengthSize(n);
    HeaderOf([], tag, n, rest, 127);
    var data := tag + DerLength(n) + rest;
    assert [] + tag + DerLength(n) + rest == data;
    assert data[..|tag|] == tag;
    WrapSmall(n);
  }

  lemma {:induction false} WrapSmall(n: nat)
    requires n < INT64_LIMIT
    ensures Wrap64(n) == n
  {
  }

  // ---- the envelope ----

  const ENVELOPE: Octet := 0xa2

  /** tlvContent: exactly one object. */
  function ContentOf(data: seq<Octet>): (r: Option<(Tag, seq<Octet>)>) {
    var h :- HeadOf(data);
    if |data| - h.start != h.length then None else Some((h.tag, data[h.start..]))
  }

  /** wrapRemoteProfileProvisioning. */
  function Wrapped(payload: seq<Octet>): (r: Option<seq<Octet>>) {
    if ContentOf(payload).None? then None else Some([ENVELOPE] + DerLength(|payload|) + payload)
  }

  /** unwrapRemoteProfileProvisioning. */
  function Unwrapped(data: seq<Octet>): (r: Option<seq<Octet>>) {
    var c :- ContentOf(data);
    if c.0 != [ENVELOPE] || ContentOf(c.1).None? then None else Some(c.1)
  }

  /** The true length in the header is the number of octets that follow it. */
  predicate Whole(data: seq<Octet>) {
    match ReadHeader(data, 0, 127)
    case None => false
    case Some(h) => h.length == |data| - h.start
  }

  lemma {:induction false} WrapIs(x: nat, y: nat)
    requires y < INT64_LIMIT
    ensures Wrap64(x) == y <==> (x - y) % TWO64 == 0
    ensures Wrap64(x) == y ==> (x == y <==> x < INT64_LIMIT)
  {
    if (x - y) % TWO64 == 0 {
      ModShift(y, (x - y) / TWO64);
    }
    if Wrap64(x) == y {
      ModShift(0, x / TWO64);
      assert x - y == 0 + x / TWO64 * TWO64;
    }
  }

  /** A payload is taken for an object exactly when its true length is right modulo 2^64. */
  lemma {:induction false} AcceptedIff(data: seq<Octet>)
    requires |data| < INT64_LIMIT
    ensures var h := ReadHeader(data, 0, 127);
            && (ContentOf(data).Some? <==> h.Some? && (h.value.length - (|data| - h.value.start)) % TWO64 == 0)
            && (ContentOf(data).Some? ==> (Whole(data) <==> h.value.length < INT64_LIMIT))
            && (Whole(data) ==> ContentOf(data).Some?)
  {
    hide ReadHeader, Wrap64;
    var h := ReadHeader(data, 0, 127);
    if h.Some? {
      WrapIs(h.value.length, |data| - h.value.start);
    }
  }

  /**
   Every whole object can be wrapped, and unwrapping gives back whatever was wrapped. What
   was wrapped is whole exactly when its true length is below 2^63.
   */
  lemma {:induction false} UnwrapWrap(payload: seq<Octet>)
    requires |payload| < INT64_LIMIT
    ensures Whole(payload) ==> Wrapped(payload).Some?
    ensures Wrapped(payload).Some? ==>
              && Unwrapped(Wrapped(payload).value) == Some(payload)
              && (Whole(payload) <==> ReadHeader(payload, 0, 127).value.length < INT64_LIMIT)
  {
    AcceptedIff(payload);
    hide Whole;
    if Wrapped(payload).Some? {
      var data := Wrapped(payload).value;
      HeadRoundTrip([ENVELOPE], |payload|, payload);
      hide HeadOf, DerLength;
      assert data[1 + |DerLength(|payload|)|..] == payload;
    }
  }

  /** What the shared parser reads as one object is whole. */
  lemma {:induction false} ParsedIsWhole(data: seq<Octet>)
    requires ParseOne(data).Some?
    ensures Whole(data)
  {
    hide ReadHeader, ParseAll;
  }

  /** A nine-octet length field of 2^64 and no contents passes for an object and travels in an envelope. */
  lemma {:induction false} WrappedNotWhole()
    ensures var payload := [0x04, 0x89, 1, 0, 0, 0, 0, 0, 0, 0, 0];
            && Wrapped(payload).Some? && Unwrapped(Wrapped(payload).value) == Some(payload)
            && !Whole(payload) && ParseOne(payload).None?
  {
    var payload: seq<Octet> := [0x04, 0x89, 1, 0, 0, 0, 0, 0, 0, 0, 0];
    var zeros: seq<Octet> := [0, 0, 0, 0, 0, 0, 0, 0];
    assert FromBase(payload[2..11]) == TWO64 by {
      assert payload[2..11] == [1] + zeros;
      OneAndZeros(zeros);
      Powers();
    }
    assert ReadHeader(payload, 0, 127) == Some(Header(1, 11, TWO64));
    hide ReadHeader;
    AcceptedIff(payload);
    UnwrapWrap(payload);
    if ParseOne(payload).Some? { ParsedIsWhole(payload); }
  }

  lemma {:induction false} OneAndZeros(zeros: seq<Octet>)
    requires forall i :: 0 <= i < |zeros| ==> zeros[i] == 0
    ensures FromBase([1] + zeros) == Pow256(|zeros|)
  {
    var s := [1] + zeros;
    if zeros == [] {
      assert s[..0] == [];
    } else {
      assert s[..|zeros|] == [1] + zeros[..|zeros| - 1];
      OneAndZeros(zeros[..|zeros| - 1]);
    }
  }

  /** What unwraps is the content of an envelope that says its length. */
  lemma {:induction false} UnwrapIsContent(data: seq<Octet>)
    requires Unwrapped(data).Some?
    ensures var p := Unwrapped(data).value;
            && ContentOf(p).Some? && |p| < |data| && data[|data| - |p|..] == p && HeadOf(data).value.length == |p|
            && (Whole(p) <==> ReadHeader(p, 0, 127).value.length < INT64_LIMIT)
  {
    HeadStarts(data);
    var p := Unwrapped(data).value;
    assert |p| == HeadOf(data).value.length;
    AcceptedIff(p);
  }

  lemma {:induction false} HeadStarts(data: seq<Octet>)
    ensures HeadOf(data).Some? ==> HeadOf(data).value.start > 0
  {
  }
}
