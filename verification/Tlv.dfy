/**
 BER-TLV trees and their definite-length, shortest-form encoding (sections 8.1.2,
 8.1.3 and 10.1 of ITU-T X.690). This stands for the bertlv library, which is not
 part of the repository: a tag is its identifier octets, a constructed tag carries
 children and a primitive tag carries a value.
 */
module Tlv {
  import opened Octets

  type Tag = seq<Octet>

  datatype Tlv =
    | Prim(tag: Tag, value: seq<Octet>)
    | Cons(tag: Tag, kids: seq<Tlv>)

  /** Identifier octets: one octet, or 0x1f in the low bits and a base-128 tail. */
  predicate TagOk(t: Tag) {
    && |t| >= 1
    && if t[0] % 32 != 31 then |t| == 1
       else |t| >= 2 && t[|t| - 1] < 128 && forall i :: 1 <= i < |t| - 1 ==> t[i] >= 128
  }

  predicate IsConstructed(t: Tag) {
    |t| >= 1 && t[0] / 32 % 2 == 1
  }

  predicate IsContextSpecific(t: Tag) {
    |t| >= 1 && t[0] / 64 == 2
  }

  function Base128(s: seq<Octet>): (r: nat) {
    if s == [] then 0 else Base128(s[..|s| - 1]) * 128 + s[|s| - 1] % 128
  }

  /** The tag number. */
  function TagNumber(t: Tag): (r: nat)
    requires |t| >= 1
  {
    if t[0] % 32 != 31 then t[0] % 32 else Base128(t[1..])
  }

  predicate Valid(t: Tlv)
    decreases t, 1
  {
    match t
    case Prim(tag, _) => TagOk(tag) && !IsConstructed(tag)
    case Cons(tag, kids) => TagOk(tag) && IsConstructed(tag) && AllValid(kids)
  }

  predicate AllValid(ts: seq<Tlv>)
    decreases ts, 0
  {
    ts == [] || (Valid(ts[0]) && AllValid(ts[1..]))
  }

  // ---- reading child lists ----

  /** The first direct child with a tag; a primitive object has none. */
  function First(t: Tlv, tag: Tag): (r: Option<Tlv>) {
    if t.Cons? then FirstIn(t.kids, tag) else None
  }

  function FirstIn(ts: seq<Tlv>, tag: Tag): (r: Option<Tlv>)
    ensures r.Some? ==> r.value in ts && r.value.tag == tag
    ensures r.None? ==> forall t :: t in ts ==> t.tag != tag
  {
    if ts == [] then None else if ts[0].tag == tag then Some(ts[0]) else FirstIn(ts[1..], tag)
  }

  /** The children present in a list of optional fields, in field order. */
  function Present(fields: seq<Option<Tlv>>): (r: seq<Tlv>) {
    if fields == [] then []
    else if fields[0].Some? then [fields[0].value] + Present(fields[1..])
    else Present(fields[1..])
  }

  predicate HasTag(o: Option<Tlv>, tag: Tag) {
    o.Some? ==> o.value.tag == tag
  }

  /** Each field that is present carries the tag of its position. */
  predicate Tagged(fields: seq<Option<Tlv>>, tags: seq<Tag>) {
    |fields| == |tags| && forall i :: 0 <= i < |fields| ==> HasTag(fields[i], tags[i])
  }

  predicate Distinct(tags: seq<Tag>) {
    forall i, j :: 0 <= i < j < |tags| ==> tags[i] != tags[j]
  }

  lemma {:induction false} PresentHasNo(fields: seq<Option<Tlv>>, tags: seq<Tag>, tag: Tag)
    requires Tagged(fields, tags) && tag !in tags
    ensures FirstIn(Present(fields), tag) == None
  {
    if fields != [] {
      PresentHasNo(fields[1..], tags[1..], tag);
      assert tags[0] in tags && HasTag(fields[0], tags[0]);
      if fields[0].Some? {
        assert Present(fields)[1..] == Present(fields[1..]);
      }
    }
  }

  /** Looking a field up by its tag gives that field back, present or absent. */
  lemma {:induction false} PresentFirst(fields: seq<Option<Tlv>>, tags: seq<Tag>, i: nat)
    requires Tagged(fields, tags) && Distinct(tags) && i < |tags|
    ensures FirstIn(Present(fields), tags[i]) == fields[i]
  {
    assert HasTag(fields[0], tags[0]);
    if fields[0].Some? {
      assert Present(fields)[1..] == Present(fields[1..]);
    }
    if i == 0 {
      if fields[0].None? { PresentHasNo(fields[1..], tags[1..], tags[0]); }
    } else {
      PresentFirst(fields[1..], tags[1..], i - 1);
    }
  }

  lemma {:induction false} PresentFirsts(fields: seq<Option<Tlv>>, tags: seq<Tag>)
    requires Tagged(fields, tags) && Distinct(tags)
    ensures forall i :: 0 <= i < |tags| ==> FirstIn(Present(fields), tags[i]) == fields[i]
  {
    forall i | 0 <= i < |tags| ensures FirstIn(Present(fields), tags[i]) == fields[i] {
      PresentFirst(fields, tags, i);
    }
  }

  predicate FieldOk(o: Option<Tlv>) {
    o.Some? ==> Valid(o.value)
  }

  lemma {:induction false} PresentValid(fields: seq<Option<Tlv>>)
    requires forall i :: 0 <= i < |fields| ==> FieldOk(fields[i])
    ensures AllValid(Present(fields))
  {
    if fields != [] {
      assert FieldOk(fields[0]);
      PresentValid(fields[1..]);
      if fields[0].Some? {
        assert Present(fields)[1..] == Present(fields[1..]);
      }
    }
  }

  lemma {:induction false} AllValidIff(ts: seq<Tlv>)
    ensures AllValid(ts) <==> forall i :: 0 <= i < |ts| ==> Valid(ts[i])
  {
    if ts != [] {
      AllValidIff(ts[1..]);
      if AllValid(ts) {
        forall i | 0 <= i < |ts| ensures Valid(ts[i]) {
          if i > 0 { assert ts[i] == ts[1..][i - 1]; }
        }
      }
    }
  }

  // ---- lists of objects ----

  /** Every object decoded in order, or an error at the first that does not decode. */
  function DecodeAll<T>(ts: seq<Tlv>, f: Tlv -> Option<T>): (r: Option<seq<T>>) {
    if ts == [] then Some([])
    else
      var init :- DecodeAll(ts[..|ts| - 1], f);
      var last :- f(ts[|ts| - 1]);
      Some(init + [last])
  }

  function EncodeAll<T>(xs: seq<T>, g: T -> Tlv): (r: seq<Tlv>)
    ensures |r| == |xs| && forall i :: 0 <= i < |r| ==> r[i] == g(xs[i])
  {
    seq(|xs|, i requires 0 <= i < |xs| => g(xs[i]))
  }

  /** The decoding loop the list structures share. */
  method UnmarshalAll<T>(ts: seq<Tlv>, f: Tlv -> Option<T>) returns (r: Option<seq<T>>)
    ensures r == DecodeAll(ts, f)
  {
    var out: seq<T> := [];
    assert ts[..|ts|] == ts;
    for index := 0 to |ts|
      invariant DecodeAll(ts[..index], f) == Some(out)
    {
      assert ts[..index + 1][..index] == ts[..index];
      var one := f(ts[index]);
      if one.None? { DecodePrefixFails(ts, f, index + 1); return None; }
      out := out + [one.value];
    }
    return Some(out);
  }

  /** The encoding loop the list structures share. */
  method MarshalAll<T>(xs: seq<T>, g: T -> Tlv) returns (r: seq<Tlv>)
    ensures r == EncodeAll(xs, g)
  {
    r := [];
    for index := 0 to |xs|
      invariant |r| == index && forall i :: 0 <= i < index ==> r[i] == g(xs[i])
    {
      r := r + [g(xs[index])];
    }
  }

  lemma {:induction false} DecodePrefixFails<T>(ts: seq<Tlv>, f: Tlv -> Option<T>, n: nat)
    requires n <= |ts| && DecodeAll(ts[..n], f).None?
    ensures DecodeAll(ts, f).None?
    decreases |ts|
  {
    if n < |ts| {
      assert ts[..|ts| - 1][..n] == ts[..n];
      DecodePrefixFails(ts[..|ts| - 1], f, n);
    } else {
      assert ts[..n] == ts;
    }
  }

  lemma {:induction false} DecodeAllOf<T>(ts: seq<Tlv>, f: Tlv -> Option<T>, xs: seq<T>)
    requires |ts| == |xs| && forall i :: 0 <= i < |ts| ==> f(ts[i]) == Some(xs[i])
    ensures DecodeAll(ts, f) == Some(xs)
  {
    if ts != [] {
      var n := |ts| - 1;
      DecodeAllOf(ts[..n], f, xs[..n]);
      assert f(ts[n]) == Some(xs[n]);
      assert xs[..n] + [xs[n]] == xs;
    }
  }

  // ---- writing ----

  /** Short form below 128, otherwise a count octet and the shortest big-endian octets. */
  function DerLength(n: nat): (r: seq<Octet>)
    ensures |r| >= 1
  {
    if n < 128 then [n] else [(128 + |BaseOctets(n)|) % 256] + BaseOctets(n)
  }

  /** No Go slice is longer than an int, so its length takes at most eight octets. */
  lemma {:induction false} SliceLength(n: nat)
    requires n < Pow256(8)
    ensures |BaseOctets(n)| <= 8
  {
    BaseOctetsSize(n, 8);
  }

  function Content(t: Tlv): (r: seq<Octet>)
    decreases t, 1
  {
    match t
    case Prim(_, value) => value
    case Cons(_, kids) => WriteAll(kids)
  }

  /** MarshalBinary. */
  function Write(t: Tlv): (r: seq<Octet>)
    decreases t, 2
  {
    t.tag + DerLength(|Content(t)|) + Content(t)
  }

  function WriteAll(ts: seq<Tlv>): (r: seq<Octet>)
    decreases ts, 0
  {
    if ts == [] then [] else Write(ts[0]) + WriteAll(ts[1..])
  }

  /** The object fits a Go slice. */
  predicate Fits(t: Tlv) {
    |Write(t)| < 0x8000_0000_0000_0000
  }

  // ---- reading ----

  /** Where the identifier octets end, where the contents start, and how long they are said to be. */
  datatype Header = Header(tagEnd: nat, start: nat, length: nat)

  /** Index just past a base-128 tail that starts at i. */
  function TailEnd(data: seq<Octet>, i: nat): (r: Option<nat>)
    ensures r.Some? ==> i < r.value <= |data|
    decreases |data| - i
  {
    if i >= |data| then None else if data[i] < 128 then Some(i + 1) else TailEnd(data, i + 1)
  }

  /** Index just past the identifier octets that start at o. */
  function TagEnd(data: seq<Octet>, o: nat): (r: Option<nat>)
    ensures r.Some? ==> o < r.value <= |data|
  {
    if o >= |data| then None else if data[o] % 32 != 31 then Some(o + 1) else TailEnd(data, o + 1)
  }

  /** The length octets that start at i, at most maxLen of them in the long form. */
  function ReadLength(data: seq<Octet>, i: nat, maxLen: nat): (r: Option<(nat, nat)>)
    ensures r.Some? ==> i < r.value.0 <= |data|
  {
    if i >= |data| then None
    else if data[i] < 128 then Some((i + 1, data[i]))
    else
      var n := data[i] - 128;
      if n == 0 || n > maxLen || i + 1 + n > |data| then None
      else Some((i + 1 + n, FromBase(data[i + 1..i + 1 + n])))
  }

  function ReadHeader(data: seq<Octet>, o: nat, maxLen: nat): (r: Option<Header>)
    ensures r.Some? ==> o < r.value.tagEnd < r.value.start <= |data|
  {
    var t :- TagEnd(data, o);
    var l :- ReadLength(data, t, maxLen);
    Some(Header(t, l.0, l.1))
  }

  /** ReadFrom: one object at the front of data, and how many octets it took. */
  function Parse(data: seq<Octet>): (r: Option<(Tlv, nat)>)
    ensures r.Some? ==> 0 < r.value.1 <= |data|
    decreases |data|, 0
  {
    var h :- ReadHeader(data, 0, 127);
    var end := h.start + h.length;
    if end > |data| then None
    else
      var tag := data[..h.tagEnd];
      var content := data[h.start..end];
      if IsConstructed(tag) then
        var kids :- ParseAll(content);
        Some((Cons(tag, kids), end))
      else Some((Prim(tag, content), end))
  }

  function ParseAll(data: seq<Octet>): (r: Option<seq<Tlv>>)
    decreases |data|, 1
  {
    if data == [] then Some([])
    else
      var one :- Parse(data);
      var rest :- ParseAll(data[one.1..]);
      Some([one.0] + rest)
  }

  /** parseTLV: exactly one object, nothing after it. */
  function ParseOne(data: seq<Octet>): (r: Option<Tlv>) {
    var one :- Parse(data);
    if one.1 == |data| then Some(one.0) else None
  }

  // ---- reading back what was written ----

  lemma {:induction false} TailEndOf(data: seq<Octet>, i: nat, end: nat)
    requires i < end <= |data| && data[end - 1] < 128 && forall k :: i <= k < end - 1 ==> data[k] >= 128
    ensures TailEnd(data, i) == Some(end)
    decreases end - i
  {
    if i < end - 1 { TailEndOf(data, i + 1, end); }
  }

  lemma {:induction false} TagEndOf(data: seq<Octet>, o: nat, tag: Tag)
    requires TagOk(tag) && o + |tag| <= |data| && data[o..o + |tag|] == tag
    ensures TagEnd(data, o) == Some(o + |tag|)
  {
    assert forall k :: 0 <= k < |tag| ==> data[o + k] == tag[k];
    if tag[0] % 32 == 31 {
      forall k | o + 1 <= k < o + |tag| - 1 ensures data[k] >= 128 { assert data[k] == tag[k - o]; }
      TailEndOf(data, o + 1, o + |tag|);
    }
  }

  lemma {:induction false} LengthOf(data: seq<Octet>, i: nat, n: nat, maxLen: nat)
    requires |BaseOctets(n)| < 128
    requires i + |DerLength(n)| <= |data| && data[i..i + |DerLength(n)|] == DerLength(n)
    ensures ReadLength(data, i, maxLen) ==
            if n < 128 || |BaseOctets(n)| <= maxLen then Some((i + |DerLength(n)|, n)) else None
  {
    var d, o := DerLength(n), BaseOctets(n);
    FromBaseOctets(n);
    hide BaseOctets, FromBase;
    assert data[i] == data[i..i + |d|][0];
    if n >= 128 {
      assert data[i + 1..i + 1 + |o|] == data[i..i + |d|][1..] == o;
    }
  }

  /** The header written for a tag and a content length reads back, if the reader takes that many length octets. */
  lemma {:induction false} HeaderOf(pre: seq<Octet>, tag: Tag, n: nat, rest: seq<Octet>, maxLen: nat)
    requires TagOk(tag) && |BaseOctets(n)| < 128
    ensures ReadHeader(pre + tag + DerLength(n) + rest, |pre|, maxLen) ==
            if n < 128 || |BaseOctets(n)| <= maxLen
            then Some(Header(|pre| + |tag|, |pre| + |tag| + |DerLength(n)|, n)) else None
  {
    hide TagOk, DerLength, BaseOctets, TagEnd, ReadLength;
    var data := pre + tag + DerLength(n) + rest;
    assert data[|pre|..|pre| + |tag|] == tag;
    assert data[|pre| + |tag|..|pre| + |tag| + |DerLength(n)|] == DerLength(n);
    TagEndOf(data, |pre|, tag);
    LengthOf(data, |pre| + |tag|, n, maxLen);
  }

  /** The length of an object that fits takes at most eight octets. */
  lemma {:induction false} WriteShape(t: Tlv)
    requires Fits(t)
    ensures |Content(t)| < 0x8000_0000_0000_0000 && |BaseOctets(|Content(t)|)| <= 8
  {
    hide BaseOctets, Content;
    Powers();
    SliceLength(|Content(t)|);
  }

  lemma {:induction false} KidFits(ts: seq<Tlv>)
    requires ts != [] && |WriteAll(ts)| < 0x8000_0000_0000_0000
    ensures Fits(ts[0]) && |WriteAll(ts[1..])| < 0x8000_0000_0000_0000
  {
    hide Write;
  }

  /** Where the parts of an encoded tree lie. */
  lemma {:induction false} WriteParts(pre: seq<Octet>, t: Tlv, post: seq<Octet>)
    ensures var data, start := pre + Write(t) + post, |pre| + |t.tag| + |DerLength(|Content(t)|)|;
            && data == pre + t.tag + DerLength(|Content(t)|) + (Content(t) + post)
            && start + |Content(t)| == |pre| + |Write(t)|
            && data[|pre|..|pre| + |t.tag|] == t.tag
            && data[start..start + |Content(t)|] == Content(t)
  {
    hide Content, DerLength;
  }

  lemma {:induction false} ParseStep(data: seq<Octet>, h: Header, t: Tlv)
    requires ReadHeader(data, 0, 127) == Some(h) && h.start + h.length <= |data| && h.tagEnd <= |data|
    requires data[..h.tagEnd] == t.tag && (t.Cons? <==> IsConstructed(t.tag))
    requires match t
             case Prim(_, value) => data[h.start..h.start + h.length] == value
             case Cons(_, kids) => ParseAll(data[h.start..h.start + h.length]) == Some(kids)
    ensures Parse(data) == Some((t, h.start + h.length))
  {
    hide ReadHeader, ParseAll, IsConstructed;
  }

  lemma {:induction false} ParseFrame(t: Tlv, rest: seq<Octet>)
    requires Fits(t) && TagOk(t.tag) && (t.Cons? <==> IsConstructed(t.tag))
    requires t.Cons? ==> ParseAll(Content(t)) == Some(t.kids)
    requires t.Prim? ==> Content(t) == t.value
    ensures Parse(Write(t) + rest) == Some((t, |Write(t)|))
  {
    hide *;
    var data, c := Write(t) + rest, Content(t);
    WriteShape(t);
    assert [] + Write(t) + rest == data;
    WriteParts([], t, rest);
    HeaderOf([], t.tag, |c|, c + rest, 127);
    var h := Header(|t.tag|, |t.tag| + |DerLength(|c|)|, |c|);
    assert [] + t.tag + DerLength(|c|) + (c + rest) == data;
    assert data[..h.tagEnd] == data[0..h.tagEnd];
    ParseStep(data, h, t);
  }

  /** Parsing the encoding of any valid tree, whatever follows it, gives the tree back. */
  lemma {:induction false} ParseWrite(t: Tlv, rest: seq<Octet>)
    requires Valid(t) && Fits(t)
    ensures Parse(Write(t) + rest) == Some((t, |Write(t)|))
    decreases t, 1
  {
    hide Parse, ParseAll;
    WriteShape(t);
    if t.Cons? { ParseWriteAll(t.kids); }
    ParseFrame(t, rest);
  }

  lemma {:induction false} ParseWriteAll(ts: seq<Tlv>)
    requires AllValid(ts) && |WriteAll(ts)| < 0x8000_0000_0000_0000
    ensures ParseAll(WriteAll(ts)) == Some(ts)
    decreases ts, 0
  {
    if ts != [] {
      KidFits(ts);
      ParseWrite(ts[0], WriteAll(ts[1..]));
      ParseWriteAll(ts[1..]);
      hide Write, Parse;
      assert WriteAll(ts) == Write(ts[0]) + WriteAll(ts[1..]);
      assert WriteAll(ts)[|Write(ts[0])|..] == WriteAll(ts[1..]);
      assert [ts[0]] + ts[1..] == ts;
    }
  }

  lemma {:induction false} ParseOneWrite(t: Tlv)
    requires Valid(t) && Fits(t)
    ensures ParseOne(Write(t)) == Some(t)
  {
    hide Write, Parse;
    ParseWrite(t, []);
    assert Write(t) + [] == Write(t);
  }
}
