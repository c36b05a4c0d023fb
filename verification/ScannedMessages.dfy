/**
 The scanner (euiccpkg/raw_tlv.go) and the parser on arbitrary octets: what both accept they
 cut up alike, so the octets that are verified parse to the signed data that is decoded.
 */
module ScannedMessages {
  import opened Octets
  import opened Tlv
  import opened Tags
  import opened SpanScanner
  import R = PackageResult

  // ---- headers at an offset ----

  lemma {:induction false} TailShift(data: seq<Octet>, o: nat, to: nat, i: nat)
    requires o <= to <= |data| && TailEnd(data[o..to], i).Some?
    ensures TailEnd(data, o + i) == Some(o + TailEnd(data[o..to], i).value)
    decreases |data| - i
  {
    var d := data[o..to];
    assert d[i] == data[o + i];
    if d[i] >= 128 { TailShift(data, o, to, i + 1); }
  }

  lemma {:induction false} TagShift(data: seq<Octet>, o: nat, to: nat)
    requires o <= to <= |data| && TagEnd(data[o..to], 0).Some?
    ensures TagEnd(data, o) == Some(o + TagEnd(data[o..to], 0).value)
  {
    hide TailEnd;
    var d := data[o..to];
    assert d[0] == data[o];
    if d[0] % 32 == 31 { TailShift(data, o, to, 1); }
  }

  lemma {:induction false} SliceOfSlice(data: seq<Octet>, o: nat, to: nat, a: nat, b: nat)
    requires o <= to <= |data| && a <= b <= to - o
    ensures data[o..to][a..b] == data[o + a..o + b]
  {
    var x, y := data[o..to][a..b], data[o + a..o + b];
    assert forall i :: 0 <= i < b - a ==> x[i] == data[o..to][a + i] == data[o + a + i] == y[i];
  }

  lemma {:induction false} LengthShift(data: seq<Octet>, o: nat, to: nat, i: nat)
    requires o <= to <= |data| && ReadLength(data[o..to], i, 127).Some? && ReadLength(data, o + i, 4).Some?
    ensures var l := ReadLength(data[o..to], i, 127).value;
            ReadLength(data, o + i, 4) == Some((o + l.0, l.1))
  {
    hide FromBase;
    var d := data[o..to];
    assert d[i] == data[o + i];
    if d[i] >= 128 {
      var n := d[i] - 128;
      SliceOfSlice(data, o, to, i + 1, i + 1 + n);
    }
  }

  /** What the parser reads at the front of a stretch, the scanner reads at its offset. */
  lemma {:induction false} HeaderShift(data: seq<Octet>, o: nat, to: nat)
    requires o <= to <= |data| && ReadHeader(data[o..to], 0, 127).Some? && ReadHeader(data, o, 4).Some?
    ensures var h := ReadHeader(data[o..to], 0, 127).value;
            ReadHeader(data, o, 4) == Some(Header(o + h.tagEnd, o + h.start, h.length))
  {
    hide TagEnd, ReadLength;
    TagShift(data, o, to);
    LengthShift(data, o, to, TagEnd(data[o..to], 0).value);
  }

  // ---- one object ----

  /** The span cuts out the object: its tag, its octets and, if constructed, its children. */
  ghost predicate Cuts(data: seq<Octet>, s: Span, t: Tlv) {
    && s.tagStart < s.valueStart <= s.valueEnd == s.end <= |data|
    && s.tag == t.tag && ParseOne(data[s.tagStart..s.end]) == Some(t)
    && (t.Cons? <==> IsConstructed(t.tag))
    && (t.Cons? ==> ParseAll(data[s.valueStart..s.valueEnd]) == Some(t.kids))
  }

  /** Parsing one object does not depend on what follows it. */
  lemma {:induction false} ParseFront(data: seq<Octet>)
    requires Parse(data).Some?
    ensures var (t, n) := Parse(data).value; ParseOne(data[..n]) == Some(t)
  {
    hide ReadHeader, ParseAll, IsConstructed;
    ParseIs(data);
    var h := ReadHeader(data, 0, 127).value;
    var n := h.start + h.length;
    FrontHeader(data, n);
    assert data[..n][..h.tagEnd] == data[..h.tagEnd] && data[..n][h.start..n] == data[h.start..n];
  }

  lemma {:induction false} TailFront(data: seq<Octet>, n: nat, i: nat)
    requires n <= |data| && TailEnd(data, i).Some? && TailEnd(data, i).value <= n
    ensures TailEnd(data[..n], i) == TailEnd(data, i)
    decreases |data| - i
  {
    assert data[..n][i] == data[i];
    if data[i] >= 128 { TailFront(data, n, i + 1); }
  }

  lemma {:induction false} FrontHeader(data: seq<Octet>, n: nat)
    requires ReadHeader(data, 0, 127).Some? && ReadHeader(data, 0, 127).value.start <= n <= |data|
    ensures ReadHeader(data[..n], 0, 127) == ReadHeader(data, 0, 127)
  {
    hide FromBase, TailEnd;
    var h := ReadHeader(data, 0, 127).value;
    assert data[..n][0] == data[0];
    if data[0] % 32 == 31 { TailFront(data, n, 1); }
    assert data[..n][h.tagEnd] == data[h.tagEnd];
    assert data[..n][h.tagEnd + 1..h.start] == data[h.tagEnd + 1..h.start];
  }

  lemma {:induction false} ParseIs(d: seq<Octet>)
    requires Parse(d).Some?
    ensures ReadHeader(d, 0, 127).Some?
    ensures var (t, n) := Parse(d).value;
            var h := ReadHeader(d, 0, 127).value;
            && n == h.start + h.length <= |d| && t.tag == d[..h.tagEnd] && (t.Cons? <==> IsConstructed(t.tag))
            && (t.Cons? ==> ParseAll(d[h.start..n]) == Some(t.kids))
  {
    hide ReadHeader, ParseAll, IsConstructed;
  }

  lemma {:induction false} SpanShift(data: seq<Octet>, o: nat, to: nat)
    requires o < to <= |data| && ReadHeader(data[o..to], 0, 127).Some? && SpanAt(data, o).Some?
    ensures var s, h := SpanAt(data, o).value, ReadHeader(data[o..to], 0, 127).value;
            s == Span(o, o + h.start, o + (h.start + h.length), o + (h.start + h.length), data[o..to][..h.tagEnd])
  {
    hide ReadHeader;
    HeaderShift(data, o, to);
    SliceOfSlice(data, o, to, 0, ReadHeader(data[o..to], 0, 127).value.tagEnd);
  }

  lemma {:induction false} SpanCuts(data: seq<Octet>, o: nat, to: nat)
    requires o < to <= |data| && Parse(data[o..to]).Some? && SpanAt(data, o).Some?
    ensures SpanAt(data, o).value.end == o + Parse(data[o..to]).value.1 <= to
    ensures Cuts(data, SpanAt(data, o).value, Parse(data[o..to]).value.0)
  {
    hide ReadHeader, ParseAll, ParseOne, Parse, IsConstructed, SpanAt;
    var d := data[o..to];
    ParseIs(d);
    SpanShift(data, o, to);
    ParseFront(d);
    var h := ReadHeader(d, 0, 127).value;
    SliceOfSlice(data, o, to, 0, h.start + h.length);
    SliceOfSlice(data, o, to, h.start, h.start + h.length);
  }

  // ---- lists of objects ----

  ghost predicate CutsAll(data: seq<Octet>, spans: seq<Span>, ts: seq<Tlv>) {
    |spans| == |ts| && forall i :: 0 <= i < |ts| ==> Cuts(data, spans[i], ts[i])
  }

  /** A stretch that parses as a list of objects is cut up into exactly these by the scanner, if it accepts it. */
  lemma {:induction false} SpansCut(data: seq<Octet>, from: nat, to: nat)
    requires from <= to <= |data| && ParseAll(data[from..to]).Some? && ChildSpans(data, from, to).Some?
    ensures CutsAll(data, ChildSpans(data, from, to).value, ParseAll(data[from..to]).value)
    decreases |data| - from
  {
    hide SpanAt, Parse, Cuts;
    if from < to {
      SpanCuts(data, from, to);
      var s, n := SpanAt(data, from).value, Parse(data[from..to]).value.1;
      assert data[from..to][n..] == data[s.end..to];
      SpansCut(data, s.end, to);
    }
  }

  // ---- the message ----

  /** The signed data of a message: the first of the two children of its only arm. */
  function SignedPart(t: Tlv): (r: Option<Tlv>) {
    if t.Cons? && |t.kids| == 1 && t.kids[0].Cons? && |t.kids[0].kids| == 2 then Some(t.kids[0].kids[0]) else None
  }

  lemma {:induction false} ArmCut(data: seq<Octet>, selected: Span, arm: Tlv)
    requires Cuts(data, selected, arm) && FromArm(data, selected).Bytes?
    ensures arm.Cons? && |arm.kids| == 2 && arm.kids[1].tag == SIGNATURE && arm.kids[0].tag == SEQUENCE
    ensures ParseOne(FromArm(data, selected).octets) == Some(arm.kids[0])
  {
    hide ChildSpans, ParseAll, ParseOne, SignedShape;
    SpansCut(data, selected.valueStart, selected.valueEnd);
    var spans := ChildSpans(data, selected.valueStart, selected.valueEnd).value;
    assert Cuts(data, spans[0], arm.kids[0]) && Cuts(data, spans[1], arm.kids[1]);
  }

  /**
   For every message the parser and the extractor both accept, the octets extracted parse to
   the signed data of the message's arm, which a signature follows.
   */
  lemma {:induction false} ExtractedIsParsed(data: seq<Octet>)
    requires ParseOne(data).Some? && RawSignedData(data).Bytes?
    ensures var t := ParseOne(data).value;
            && SignedPart(t).Some? && t.kids[0].kids[1].tag == SIGNATURE
            && ParseOne(RawSignedData(data).octets) == SignedPart(t)
  {
    hide SpanAt, Parse, ParseAll, FromArm, ChildSpans;
    var t := ParseOne(data).value;
    var root := SpanAt(data, 0).value;
    var selected := SpanAt(data, root.valueStart).value;
    assert data[0..|data|] == data;
    SpanCuts(data, 0, |data|);
    OneChild(data, root.valueStart, root.valueEnd);
    SpansCut(data, root.valueStart, root.valueEnd);
    assert t.Cons?;
    ArmCut(data, selected, t.kids[0]);
  }

  lemma {:induction false} OneChild(data: seq<Octet>, from: nat, to: nat)
    requires SpanAt(data, from).Some? && SpanAt(data, from).value.end == to
    ensures from < to <= |data| && ChildSpans(data, from, to) == Some([SpanAt(data, from).value])
  {
    var s := SpanAt(data, from).value;
    assert ChildSpans(data, to, to) == Some([]);
    SpanStep(data, from, to, s, []);
    assert [s] + [] == [s];
  }

  /** What the eIM decodes from an accepted message and what it verifies are the same signed data. */
  lemma {:induction false} VerifiedIsDecoded(data: seq<Octet>)
    requires ParseOne(data).Some? && RawSignedData(data).Bytes? && R.DecodeResult(ParseOne(data).value).Some?
    ensures ParseOne(RawSignedData(data).octets).Some?
    ensures var signed := ParseOne(RawSignedData(data).octets).value;
            match R.DecodeResult(ParseOne(data).value).value
            case ResultSigned(d, _) => R.DecodeData(signed) == Some(d)
            case ErrorSigned(e, _) => R.DecodeError(signed) == Some(e)
            case ErrorUnsigned(_) => false
  {
    ExtractedIsParsed(data);
    hide ParseOne, RawSignedData, R.DecodeData, R.DecodeError, R.DecodeUnsigned;
    var arm := ParseOne(data).value.kids[0];
    assert arm.kids == [arm.kids[0], arm.kids[1]];
  }
}
