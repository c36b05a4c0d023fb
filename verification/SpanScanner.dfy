/**
 The byte-level scanner that finds the exact signed slice of an eUICC package
 result (euiccpkg/raw_tlv.go), and its agreement with the tree encoding.
 */
module SpanScanner {
  import opened Octets
  import opened Tlv
  import opened Tags

  /** The scanner reads at most four length octets. */
  const SPAN_LIMIT := 0x1_0000_0000

  datatype Span = Span(tagStart: nat, valueStart: nat, valueEnd: nat, end: nat, tag: Tag)

  function SpanAt(data: seq<Octet>, offset: int): (r: Option<Span>)
    ensures r.Some? ==>
              0 <= offset == r.value.tagStart < r.value.valueStart <= r.value.valueEnd == r.value.end <= |data|
  {
    if offset < 0 || offset >= |data| then None
    else
      var h :- ReadHeader(data, offset, 4);
      var end := h.start + h.length;
      if end > |data| then None else Some(Span(offset, h.start, end, end, data[offset..h.tagEnd]))
  }

  /** The identifier octets of parseTLVSpan. */
  method ScanTag(data: seq<Octet>, offset: nat) returns (r: Option<nat>)
    requires offset < |data|
    ensures r == TagEnd(data, offset)
  {
    var pos := offset + 1;
    if data[offset] % 32 == 31 {
      while true
        invariant offset + 1 <= pos <= |data|
        invariant TagEnd(data, offset) == TailEnd(data, pos)
        decreases |data| - pos
      {
        if pos >= |data| { return None; }
        var b := data[pos];
        pos := pos + 1;
        if b < 128 { break; }
      }
    }
    return Some(pos);
  }

  /** The length octets of parseTLVSpan. */
  method ScanLength(data: seq<Octet>, offset: nat) returns (r: Option<(nat, nat)>)
    ensures r == ReadLength(data, offset, 4)
  {
    if offset >= |data| { return None; }
    var lengthByte := data[offset];
    var pos := offset + 1;
    if lengthByte < 128 { return Some((pos, lengthByte)); }
    if lengthByte == 128 { return None; }
    var lengthBytes := lengthByte - 128;
    if lengthBytes > 4 || pos + lengthBytes > |data| { return None; }
    var length: nat := 0;
    for i := 0 to lengthBytes
      invariant pos == offset + 1 + i
      invariant length == FromBase(data[offset + 1..pos])
    {
      assert data[offset + 1..pos + 1][..i] == data[offset + 1..pos];
      length := length * 256 + data[pos];
      pos := pos + 1;
    }
    return Some((pos, length));
  }

  /** parseTLVSpan. */
  method ParseTlvSpan(data: seq<Octet>, offset: int) returns (r: Option<Span>)
    ensures r == SpanAt(data, offset)
  {
    if offset < 0 || offset >= |data| { return None; }
    var tagEnd := ScanTag(data, offset);
    if tagEnd.None? { return None; }
    var length := ScanLength(data, tagEnd.value);
    if length.None? { return None; }
    var start, end := length.value.0, length.value.0 + length.value.1;
    if end > |data| { return None; }
    return Some(Span(offset, start, end, end, data[offset..tagEnd.value]));
  }

  /** The spans that start at from, one after the other, until one ends at or past to. */
  function ChildSpans(data: seq<Octet>, from: nat, to: nat): (r: Option<seq<Span>>)
    decreases to - from
  {
    if from >= to then Some([])
    else
      var child :- SpanAt(data, from);
      var rest :- ChildSpans(data, child.end, to);
      Some([child] + rest)
  }

  function Prepend(out: seq<Span>, rest: Option<seq<Span>>): (r: Option<seq<Span>>) {
    if rest.None? then None else Some(out + rest.value)
  }

  /** children: a child is bounded by the whole buffer, not by its parent. */
  method Children(data: seq<Octet>, parent: Span) returns (r: Option<seq<Span>>)
    ensures r == ChildSpans(data, parent.valueStart, parent.valueEnd)
  {
    hide SpanAt;
    var out: seq<Span> := [];
    var offset := parent.valueStart;
    ghost var all := ChildSpans(data, offset, parent.valueEnd);
    assert all.Some? ==> [] + all.value == all.value;
    while offset < parent.valueEnd
      invariant all == Prepend(out, ChildSpans(data, offset, parent.valueEnd))
      decreases parent.valueEnd - offset
    {
      var child := ParseTlvSpan(data, offset);
      if child.None? { return None; }
      ghost var rest := ChildSpans(data, child.value.end, parent.valueEnd);
      assert rest.Some? ==> out + ([child.value] + rest.value) == (out + [child.value]) + rest.value;
      out := out + [child.value];
      offset := child.value.end;
    }
    assert out + [] == out;
    return Some(out);
  }

  // ---- the shape of signed data ----

  function TagList(spans: seq<Span>): (r: seq<Tag>)
    ensures |r| == |spans| && forall i :: 0 <= i < |r| ==> r[i] == spans[i].tag
  {
    seq(|spans|, i requires 0 <= i < |spans| => spans[i].tag)
  }

  /** signedDataPrefix: the index after eimId, counter and an optional transaction id. */
  function SignedDataPrefix(tags: seq<Tag>): (r: Option<nat>) {
    if |tags| < 3 || tags[0] != P0 || tags[1] != P1 then None
    else
      var index := if tags[2] == P2 then 3 else 2;
      if index < |tags| then Some(index) else None
  }

  predicate IsResultData(tags: seq<Tag>) {
    match SignedDataPrefix(tags)
    case None => false
    case Some(i) => i < |tags| && tags[i] == P3 && i + 1 == |tags| - 1 && tags[i + 1] == SEQUENCE
  }

  predicate IsErrorData(tags: seq<Tag>) {
    match SignedDataPrefix(tags)
    case None => false
    case Some(i) => i == |tags| - 1 && tags[i] == INTEGER
  }

  predicate SignedShape(tags: seq<Tag>) {
    IsResultData(tags) || IsErrorData(tags)
  }

  datatype Extract = Bytes(octets: seq<Octet>) | Nothing | Refused

  /** What the extractor does with the arm of a message. */
  function FromArm(data: seq<Octet>, selected: Span): (r: Extract) {
    if selected.tag !in [SEQUENCE, C0, C1] then Nothing
    else match ChildSpans(data, selected.valueStart, selected.valueEnd)
      case None => Refused
      case Some(spans) =>
        if spans == [] then Refused
        else if spans[|spans| - 1].tag != SIGNATURE then Nothing
        else if |spans| != 2 || spans[0].tag != SEQUENCE then Refused
        else match ChildSpans(data, spans[0].valueStart, spans[0].valueEnd)
          case None => Refused
          case Some(fields) =>
            if SignedShape(TagList(fields)) then Slice(data, spans[0].tagStart, spans[0].end) else Refused
  }

  /** rawSignedDataFromResultDER, as a function of the input. */
  function RawSignedData(data: seq<Octet>): (r: Extract) {
    match SpanAt(data, 0)
    case None => Refused
    case Some(root) =>
      if root.end != |data| || root.tag != EUICC_PACKAGE then Refused
      else match SpanAt(data, root.valueStart)
        case None => Refused
        case Some(selected) => if selected.end != root.valueEnd then Refused else FromArm(data, selected)
  }

  function Slice(data: seq<Octet>, from: nat, to: nat): (r: Extract) {
    if from <= to <= |data| then Bytes(data[from..to]) else Refused
  }

  /** rawSignedDataFromResultDER. */
  method RawSignedDataFromResultDer(data: seq<Octet>) returns (r: Extract)
    ensures r == RawSignedData(data)
  {
    var root := ParseTlvSpan(data, 0);
    if root.None? || root.value.end != |data| || root.value.tag != EUICC_PACKAGE { return Refused; }
    var selected := ParseTlvSpan(data, root.value.valueStart);
    if selected.None? || selected.value.end != root.value.valueEnd { return Refused; }
    if selected.value.tag == C2 { return Nothing; }
    if selected.value.tag != SEQUENCE && selected.value.tag != C0 && selected.value.tag != C1 {
      return Nothing;
    }
    var spans := Children(data, selected.value);
    if spans.None? || |spans.value| == 0 { return Refused; }
    if spans.value[|spans.value| - 1].tag != SIGNATURE { return Nothing; }
    if |spans.value| != 2 { return Refused; }
    var signedData := spans.value[0];
    if signedData.tag != SEQUENCE { return Refused; }
    var fields := Children(data, signedData);
    if fields.None? || !SignedShape(TagList(fields.value)) { return Refused; }
    return Slice(data, signedData.tagStart, signedData.end);
  }

  // ---- the scanner on encoded trees ----

  /** The span of a tree encoded at an offset. */
  function SpanOf(t: Tlv, offset: nat): (s: Span) {
    var start := offset + |t.tag| + |DerLength(|Content(t)|)|;
    Span(offset, start, start + |Content(t)|, start + |Content(t)|, t.tag)
  }

  function SpansOf(ts: seq<Tlv>, offset: nat): (r: seq<Span>)
    ensures |r| == |ts| && forall i :: 0 <= i < |r| ==> r[i].tag == ts[i].tag
  {
    if ts == [] then [] else [SpanOf(ts[0], offset)] + SpansOf(ts[1..], offset + |Write(ts[0])|)
  }

  lemma {:induction false} LengthOctets(n: nat)
    ensures SPAN_LIMIT == 0x1_0000_0000
    ensures n < SPAN_LIMIT <==> (n < 128 || |BaseOctets(n)| <= 4)
  {
    Powers();
    BaseOctetsSize(n, 4);
  }

  lemma {:induction false} SpanFromHeader(data: seq<Octet>, offset: nat, h: Option<Header>)
    requires offset < |data| && ReadHeader(data, offset, 4) == h
    requires h.Some? ==> h.value.start + h.value.length <= |data|
    ensures SpanAt(data, offset) ==
            if h.None? then None
            else var end := h.value.start + h.value.length;
              Some(Span(offset, h.value.start, end, end, data[offset..h.value.tagEnd]))
  {
    hide ReadHeader;
  }

  /** The scanner finds an encoded tree exactly when its length takes at most four octets. */
  lemma {:induction false} SpanOfWrite(pre: seq<Octet>, t: Tlv, post: seq<Octet>)
    requires Valid(t) && Fits(t)
    ensures SpanAt(pre + Write(t) + post, |pre|) ==
            if |Content(t)| < SPAN_LIMIT then Some(SpanOf(t, |pre|)) else None
  {
    hide Write, Content, DerLength, BaseOctets, ReadHeader, SpanAt, Fits;
    assert Valid(t) ==> TagOk(t.tag);
    SpanOfOctets(pre, t, post);
  }

  lemma {:induction false} SpanOfOctets(pre: seq<Octet>, t: Tlv, post: seq<Octet>)
    requires TagOk(t.tag) && Fits(t)
    ensures SpanAt(pre + Write(t) + post, |pre|) ==
            if |Content(t)| < SPAN_LIMIT then Some(SpanOf(t, |pre|)) else None
  {
    hide TagOk, Write, Content, DerLength, BaseOctets, ReadHeader, SpanAt, Fits;
    var c, data := Content(t), pre + Write(t) + post;
    WriteShape(t);
    WriteParts(pre, t, post);
    HeaderOf(pre, t.tag, |c|, c + post, 4);
    LengthOctets(|c|);
    WriteLength(t, |pre|);
    SpanFromHeader(data, |pre|, ReadHeader(data, |pre|, 4));
  }

  lemma {:induction false} ListCons(ts: seq<Tlv>, offset: nat)
    requires ts != []
    ensures WriteAll(ts) == Write(ts[0]) + WriteAll(ts[1..])
    ensures AllValid(ts) <==> Valid(ts[0]) && AllValid(ts[1..])
    ensures SpansOf(ts, offset) == [SpanOf(ts[0], offset)] + SpansOf(ts[1..], offset + |Write(ts[0])|)
  {
  }

  lemma {:induction false} SpanStep(data: seq<Octet>, from: nat, to: nat, s: Span, rest: seq<Span>)
    requires from < to && SpanAt(data, from) == Some(s) && ChildSpans(data, s.end, to) == Some(rest)
    ensures ChildSpans(data, from, to) == Some([s] + rest)
  {
    hide SpanAt;
  }

  /** The children of an encoded list are tiled by its spans, each span cutting out one child. */
  lemma {:induction false} SpansOfWrite(pre: seq<Octet>, ts: seq<Tlv>, post: seq<Octet>)
    requires AllValid(ts) && |WriteAll(ts)| < SPAN_LIMIT
    ensures ChildSpans(pre + WriteAll(ts) + post, |pre|, |pre| + |WriteAll(ts)|) == Some(SpansOf(ts, |pre|))
    decreases |ts|
  {
    if ts == [] {
      assert WriteAll(ts) == [];
    } else {
      SpansOfWriteCons(pre, ts, post);
    }
  }

  lemma {:induction false} SpansOfWriteCons(pre: seq<Octet>, ts: seq<Tlv>, post: seq<Octet>)
    requires ts != [] && AllValid(ts) && |WriteAll(ts)| < SPAN_LIMIT
    ensures ChildSpans(pre + WriteAll(ts) + post, |pre|, |pre| + |WriteAll(ts)|) == Some(SpansOf(ts, |pre|))
    decreases |ts|, 0
  {
    hide *;
    ListCons(ts, |pre|);
    var w, rest := Write(ts[0]), WriteAll(ts[1..]);
    var data, to := pre + WriteAll(ts) + post, |pre| + |WriteAll(ts)|;
    assert data == pre + w + (rest + post);
    assert data == (pre + w) + rest + post;
    WriteLength(ts[0], |pre|);
    LengthOctets(0);
    KidFits(ts);
    SpanOfWrite(pre, ts[0], rest + post);
    SpansOfWrite(pre + w, ts[1..], post);
    SpanStep(data, |pre|, to, SpanOf(ts[0], |pre|), SpansOf(ts[1..], |pre + w|));
  }

  lemma {:induction false} WriteLength(t: Tlv, offset: nat)
    ensures SpanOf(t, offset).tag == t.tag && SpanOf(t, offset).tagStart == offset
    ensures SpanOf(t, offset).end == offset + |Write(t)| > offset
    ensures |Content(t)| < |Write(t)|
  {
    hide Content, DerLength;
  }

  /** The octets in front of the contents of a tree. */
  function Lead(pre: seq<Octet>, t: Tlv): (r: seq<Octet>) {
    pre + t.tag + DerLength(|Content(t)|)
  }

  lemma {:induction false} Inside(pre: seq<Octet>, t: Tlv, post: seq<Octet>)
    requires t.Cons?
    ensures |Lead(pre, t)| == SpanOf(t, |pre|).valueStart
    ensures |Lead(pre, t)| + |WriteAll(t.kids)| == SpanOf(t, |pre|).valueEnd
    ensures |WriteAll(t.kids)| < |Write(t)|
    ensures pre + Write(t) + post == Lead(pre, t) + WriteAll(t.kids) + post
  {
    hide DerLength, WriteAll;
  }

  /** The scanner on the children of a tree encoded at an offset. */
  lemma {:induction false} KidSpans(pre: seq<Octet>, t: Tlv, post: seq<Octet>)
    requires t.Cons? && AllValid(t.kids) && |Write(t)| < SPAN_LIMIT
    ensures var s := SpanOf(t, |pre|);
            ChildSpans(pre + Write(t) + post, s.valueStart, s.valueEnd) == Some(SpansOf(t.kids, s.valueStart))
  {
    hide *;
    Inside(pre, t, post);
    SpansOfWrite(Lead(pre, t), t.kids, post);
  }

  /** The result message: BF51 around one arm. */
  function Message(arm: Tlv): (r: Tlv) { Cons(EUICC_PACKAGE, [arm]) }

  /** A signed arm: signed data, then the signature. */
  function SignedArm(arm: Tag, fields: seq<Tlv>, signature: seq<Octet>): (r: Tlv) {
    Cons(arm, [Cons(SEQUENCE, fields), Prim(SIGNATURE, signature)])
  }

  lemma {:induction false} OneKid(t: Tlv)
    ensures WriteAll([t]) == Write(t) && (AllValid([t]) <==> Valid(t))
  {
    assert [t][1..] == [];
  }

  lemma {:induction false} TwoKids(a: Tlv, b: Tlv, offset: nat)
    ensures WriteAll([a, b]) == Write(a) + Write(b) && (AllValid([a, b]) <==> Valid(a) && Valid(b))
    ensures SpansOf([a, b], offset) == [SpanOf(a, offset), SpanOf(b, offset + |Write(a)|)]
  {
    assert [a, b][1..] == [b] && [b][1..] == [];
    OneKid(b);
    ListCons([a, b], offset);
    ListCons([b], offset + |Write(a)|);
  }

  lemma {:induction false} MessageParts(arm: Tlv)
    requires Valid(arm)
    ensures var m := Message(arm);
            && Valid(m) && Content(m) == Write(arm)
            && Write(m) == Lead([], m) + Write(arm)
            && |Lead([], m)| == SpanOf(m, 0).valueStart
            && SpanOf(m, 0).end == |Write(m)|
            && SpanOf(arm, |Lead([], m)|).end == SpanOf(m, 0).valueEnd
  {
    OneKid(arm);
    WriteLength(Message(arm), 0);
    WriteLength(arm, |Lead([], Message(arm))|);
    hide Write, WriteAll;
    Inside([], Message(arm), []);
  }

  /** The scanner steps into the only arm of a message. */
  lemma {:induction false} MessageArm(arm: Tlv)
    requires Valid(arm) && |Write(arm)| < SPAN_LIMIT
    ensures RawSignedData(Write(Message(arm))) ==
            FromArm(Write(Message(arm)), SpanOf(arm, |Lead([], Message(arm))|))
  {
    var m := Message(arm);
    MessageParts(arm);
    FitsMessage(arm);
    WriteLength(arm, 0);
    SpanOfWrite([], m, []);
    SpanOfWrite(Lead([], m), arm, []);
    hide Write, SpanAt, FromArm, Lead, Content, DerLength, Valid;
    assert [] + Write(m) + [] == Write(m);
    assert Lead([], m) + Write(arm) + [] == Write(m);
  }

  lemma {:induction false} FitsMessage(arm: Tlv)
    requires Valid(arm) && |Write(arm)| < SPAN_LIMIT
    ensures Fits(Message(arm)) && Fits(arm)
  {
    MessageParts(arm);
    LengthOctets(|Write(arm)|);
  }

  /**
   The scanner and the tree encoding name the same octets: on every encoded signed
   result or error, in bare SEQUENCE, A0 or A1 form, the extractor returns exactly
   the encoding of the signed data.
   */
  lemma {:induction false} ExtractsSignedData(arm: Tag, fields: seq<Tlv>, signature: seq<Octet>)
    requires arm in [SEQUENCE, C0, C1]
    requires AllValid(fields) && SignedShape(TagList(SpansOf(fields, 0)))
    requires |Write(SignedArm(arm, fields, signature))| < SPAN_LIMIT
    ensures RawSignedData(Write(Message(SignedArm(arm, fields, signature)))) == Bytes(Write(Cons(SEQUENCE, fields)))
  {
    var d, s := Cons(SEQUENCE, fields), Prim(SIGNATURE, signature);
    var a := SignedArm(arm, fields, signature);
    hide *;
    SignedArmKids(arm, fields, signature);
    MessageArm(a);
    MessageParts(a);
    FromSignedArm(Lead([], Message(a)), arm, fields, signature);
  }

  lemma {:induction false} FromTwoSpans(data: seq<Octet>, selected: Span, d: Span, s: Span, fields: seq<Span>)
    requires selected.tag in [SEQUENCE, C0, C1] && d.tag == SEQUENCE && s.tag == SIGNATURE
    requires ChildSpans(data, selected.valueStart, selected.valueEnd) == Some([d, s])
    requires ChildSpans(data, d.valueStart, d.valueEnd) == Some(fields) && SignedShape(TagList(fields))
    requires d.tagStart <= d.end <= |data|
    ensures FromArm(data, selected) == Bytes(data[d.tagStart..d.end])
  {
    hide ChildSpans, SignedShape;
  }

  lemma {:induction false} SameTagList(fields: seq<Tlv>, a: nat, b: nat)
    ensures TagList(SpansOf(fields, a)) == TagList(SpansOf(fields, b))
  {
  }

  lemma {:induction false} SignedArmKids(arm: Tag, fields: seq<Tlv>, signature: seq<Octet>)
    requires AllValid(fields)
    ensures var a := SignedArm(arm, fields, signature);
            && a.Cons? && a.tag == arm && a.kids == [Cons(SEQUENCE, fields), Prim(SIGNATURE, signature)]
            && AllValid(a.kids)
            && (arm in [SEQUENCE, C0, C1] ==> Valid(a))
  {
    assert forall t :: t in [SEQUENCE, C0, C1] ==> TagOk(t) && IsConstructed(t);
    TwoKids(Cons(SEQUENCE, fields), Prim(SIGNATURE, signature), 0);
  }

  lemma {:induction false} FromSignedArm(pre: seq<Octet>, arm: Tag, fields: seq<Tlv>, signature: seq<Octet>)
    requires arm in [SEQUENCE, C0, C1]
    requires AllValid(fields) && SignedShape(TagList(SpansOf(fields, 0)))
    requires |Write(SignedArm(arm, fields, signature))| < SPAN_LIMIT
    ensures var a := SignedArm(arm, fields, signature);
            FromArm(pre + Write(a), SpanOf(a, |pre|)) == Bytes(Write(Cons(SEQUENCE, fields)))
  {
    hide *;
    var d, s := Cons(SEQUENCE, fields), Prim(SIGNATURE, signature);
    var a := SignedArm(arm, fields, signature);
    SignedArmKids(arm, fields, signature);
    var inner := Lead(pre, a);
    var data := pre + Write(a);
    TwoKids(d, s, |inner|);
    WriteLength(a, |pre|);
    WriteLength(d, |inner|);
    WriteLength(s, |inner| + |Write(d)|);
    assert pre + Write(a) + [] == data;
    KidSpans(pre, a, []);
    Inside(pre, a, []);
    assert data == inner + Write(d) + Write(s);
    KidSpans(inner, d, Write(s));
    SameTagList(fields, 0, SpanOf(d, |inner|).valueStart);
    FromTwoSpans(data, SpanOf(a, |pre|), SpanOf(d, |inner|), SpanOf(s, |inner| + |Write(d)|),
                 SpansOf(fields, SpanOf(d, |inner|).valueStart));
    assert data[|inner|..|inner| + |Write(d)|] == Write(d);
  }

  /** Above the four-octet limit the extractor refuses, so the limit is exact. */
  lemma {:induction false} RefusesOversized(arm: Tlv)
    requires Valid(arm) && Fits(Message(arm)) && |Write(arm)| >= SPAN_LIMIT
    ensures RawSignedData(Write(Message(arm))) == Refused
  {
    MessageParts(arm);
    SpanOfWrite([], Message(arm), []);
    hide Write, SpanAt;
    assert [] + Write(Message(arm)) + [] == Write(Message(arm));
  }

  /** An arm without a signature at its end has no signed data to extract, and neither has an A2 arm. */
  lemma {:induction false} ExtractsNothing(arm: Tlv)
    requires Valid(arm) && |Write(arm)| < SPAN_LIMIT
    requires arm.Cons? && arm.kids != []
    requires arm.kids[|arm.kids| - 1].tag != SIGNATURE || arm.tag == C2
    ensures RawSignedData(Write(Message(arm))) == Nothing
  {
    var pre := Lead([], Message(arm));
    MessageArm(arm);
    MessageParts(arm);
    KidSpans(pre, arm, []);
    hide Write, Valid, ChildSpans, Content, DerLength, Lead, SpansOf, SpanAt;
    assert pre + Write(arm) + [] == pre + Write(arm);
  }
}
