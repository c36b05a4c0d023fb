/** eUICC package results, profile lists, acknowledgements and eIM results (asn1/result.go) as TLV trees. */
module PackageResult {
  import opened Octets
  import opened Tlv
  import opened Tags
  import opened Fields
  import opened SpanScanner

  datatype ResultData = ResultData(
    eimID: Text, counter: Int64, transactionID: Option<Text>, seqNumber: Int64, results: seq<Tlv>)

  datatype ErrorData = ErrorData(eimID: Text, counter: Int64, transactionID: Option<Text>, code: Int64)

  datatype UnsignedError = UnsignedError(
    eimID: Text, transactionID: Option<Text>, token: Option<Int64>, code: Option<Int64>)

  datatype Result =
    | ResultSigned(data: ResultData, signature: Text)
    | ErrorSigned(error: ErrorData, signature: Text)
    | ErrorUnsigned(unsigned: UnsignedError)

  // ---- encoding ----

  function DataFields(d: ResultData): (r: seq<Option<Tlv>>) {
    [ Some(Prim(P0, d.eimID)), Some(IntegerTlv(P1, d.counter)), TextField(P2, d.transactionID),
      Some(IntegerTlv(P3, d.seqNumber)), Some(Cons(SEQUENCE, d.results)) ]
  }

  function ErrorFields(e: ErrorData): (r: seq<Option<Tlv>>) {
    [ Some(Prim(P0, e.eimID)), Some(IntegerTlv(P1, e.counter)), TextField(P2, e.transactionID),
      Some(IntegerTlv(INTEGER, e.code)) ]
  }

  function UnsignedFields(u: UnsignedError): (r: seq<Option<Tlv>>) {
    [Some(Prim(P0, u.eimID)), TextField(P2, u.transactionID), IntField(P4, u.token), IntField(P15, u.code)]
  }

  function DataTlv(d: ResultData): (r: Tlv) { Cons(SEQUENCE, Present(DataFields(d))) }

  function ErrorTlv(e: ErrorData): (r: Tlv) { Cons(SEQUENCE, Present(ErrorFields(e))) }

  /** The children of the selected arm. */
  function ArmKids(r: Result): (k: seq<Tlv>) {
    match r
    case ResultSigned(d, signature) => [DataTlv(d), Prim(SIGNATURE, signature)]
    case ErrorSigned(e, signature) => [ErrorTlv(e), Prim(SIGNATURE, signature)]
    case ErrorUnsigned(u) => Present(UnsignedFields(u))
  }

  /** The message with its selected arm under a given tag; MarshalBERTLV writes a bare SEQUENCE. */
  function Tagging(r: Result, arm: Tag): (t: Tlv) { Message(Cons(arm, ArmKids(r))) }

  function ResultTlv(r: Result): (t: Tlv) { Tagging(r, SEQUENCE) }

  // ---- decoding ----

  /** unwrapEuiccPackageResultChoice. */
  function Unwrap(t: Tlv): (r: Tlv) { if t.tag in [C0, C1, C2] then AsSequence(t) else t }

  /** isEuiccResultDataTLV: a single result arm in place of the result list. */
  predicate IsResultArm(t: Tlv) {
    || t.tag == PROFILE_INFO_LIST
    || t.tag == SET_DEFAULT_DP
    || (IsContextSpecific(t.tag) && 3 <= TagNumber(t.tag) <= 15)
  }

  function DecodeData(t: Tlv): (r: Option<ResultData>) {
    if t.tag != SEQUENCE || !t.Cons? || t.kids == [] then None
    else
      var eimID :- First(t, P0);
      var counter :- RequiredInt(First(t, P1));
      var seqNumber :- RequiredInt(First(t, P3));
      var list := t.kids[|t.kids| - 1];
      if list.tag == SEQUENCE then
        Some(ResultData(ValueOf(eimID), counter, TextOf(First(t, P2)), seqNumber, if list.Cons? then list.kids else []))
      else if IsResultArm(list) then
        Some(ResultData(ValueOf(eimID), counter, TextOf(First(t, P2)), seqNumber, [list]))
      else None
  }

  function DecodeError(t: Tlv): (r: Option<ErrorData>) {
    if t.tag != SEQUENCE then None
    else
      var eimID :- First(t, P0);
      var counter :- RequiredInt(First(t, P1));
      var code :- RequiredInt(First(t, INTEGER));
      Some(ErrorData(ValueOf(eimID), counter, TextOf(First(t, P2)), code))
  }

  function DecodeUnsigned(t: Tlv): (r: Option<UnsignedError>) {
    if t.tag == INTEGER || t.tag == P15 then
      var code :- IntegerOf(t);
      Some(UnsignedError([], None, None, Some(code)))
    else if t.tag != SEQUENCE then None
    else
      var token :- OptionalInt(First(t, P4));
      var code :- OptionalInt(First(t, P15));
      var id := First(t, P0);
      Some(UnsignedError(if id.Some? then ValueOf(id.value) else [], TextOf(First(t, P2)), token, code))
  }

  /** A signed arm is a result when its data has a sequence number, and an error otherwise. */
  function DecodeSigned(arm: Tlv): (r: Option<Result>) {
    var signature :- First(arm, SIGNATURE);
    if arm.tag != SEQUENCE || |arm.kids| < 2 then None
    else if First(arm.kids[0], P3).Some? then
      var d :- DecodeData(arm.kids[0]);
      Some(ResultSigned(d, ValueOf(signature)))
    else
      var e :- DecodeError(arm.kids[0]);
      Some(ErrorSigned(e, ValueOf(signature)))
  }

  function DecodeArm(arm: Tlv): (r: Option<Result>) {
    if First(arm, SIGNATURE).Some? then DecodeSigned(arm)
    else
      var u :- DecodeUnsigned(arm);
      Some(ErrorUnsigned(u))
  }

  function DecodeResult(t: Tlv): (r: Option<Result>) {
    if t.tag != EUICC_PACKAGE || !t.Cons? || |t.kids| != 1 then None else DecodeArm(Unwrap(t.kids[0]))
  }

  // ---- round trips ----

  lemma {:induction false} PresentCons(a: Option<Tlv>, rest: seq<Option<Tlv>>)
    ensures Present([a] + rest) == OneOf(a) + Present(rest)
  {
    assert ([a] + rest)[1..] == rest;
  }

  lemma {:induction false} PresentTwo(a: Option<Tlv>, b: Option<Tlv>)
    ensures Present([a, b]) == OneOf(a) + OneOf(b)
  {
    hide OneOf, Present;
    PresentCons(a, [b]);
    PresentCons(b, []);
    NonePresent();
    assert [a, b] == [a] + [b] && [b] == [b] + [];
  }

  lemma {:induction false} PresentFour(a: Option<Tlv>, b: Option<Tlv>, c: Option<Tlv>, d: Option<Tlv>)
    ensures Present([a, b, c, d]) == OneOf(a) + OneOf(b) + OneOf(c) + OneOf(d)
  {
    hide OneOf, Present;
    PresentTwo(c, d);
    PresentCons(b, [c, d]);
    PresentCons(a, [b, c, d]);
    assert [a, b, c, d] == [a] + [b, c, d] && [b, c, d] == [b] + [c, d];
  }

  lemma {:induction false} NonePresent()
    ensures Present([]) == []
  {
  }

  lemma {:induction false} PresentFive(a: Option<Tlv>, b: Option<Tlv>, c: Option<Tlv>, d: Option<Tlv>, e: Option<Tlv>)
    ensures Present([a, b, c, d, e]) == OneOf(a) + OneOf(b) + OneOf(c) + OneOf(d) + OneOf(e)
  {
    hide OneOf, Present;
    PresentCons(a, [b, c, d, e]);
    PresentFour(b, c, d, e);
    assert [a, b, c, d, e] == [a] + [b, c, d, e];
  }

  function OneOf(o: Option<Tlv>): (r: seq<Tlv>) { if o.Some? then [o.value] else [] }

  lemma {:induction false} DataLookups(d: ResultData)
    ensures var t := DataTlv(d);
            && First(t, P0) == Some(Prim(P0, d.eimID)) && First(t, P1) == Some(IntegerTlv(P1, d.counter))
            && First(t, P2) == TextField(P2, d.transactionID) && First(t, P3) == Some(IntegerTlv(P3, d.seqNumber))
  {
    var f, g := DataFields(d), [P0, P1, P2, P3, SEQUENCE];
    FieldRoundTrips(P2);
    hide TextField, FirstIn, Present;
    assert IntegerTlv(P1, d.counter).tag == P1 && IntegerTlv(P3, d.seqNumber).tag == P3;
    hide IntegerTlv;
    PresentFirsts(f, g);
    assert g[0] == P0 && g[1] == P1 && g[2] == P2 && g[3] == P3;
  }

  lemma {:induction false} DataLast(d: ResultData)
    ensures var k := DataTlv(d).kids; k != [] && k[|k| - 1] == Cons(SEQUENCE, d.results)
  {
    var f := DataFields(d);
    PresentFive(f[0], f[1], f[2], f[3], f[4]);
    hide Present, TextField, IntegerTlv;
  }

  lemma {:induction false} DataRoundTrip(d: ResultData)
    ensures DecodeData(DataTlv(d)) == Some(d)
    ensures First(DataTlv(d), P3).Some?
  {
    DataLookups(d);
    DataLast(d);
    FieldRoundTrips(P2);
    IntegerRoundTrip(P1, d.counter);
    IntegerRoundTrip(P3, d.seqNumber);
    assert DataTlv(d).tag == SEQUENCE;
    hide TextField, IntegerTlv, IntegerOf, TextOf, First, Present, DataFields, IsResultArm;
  }

  lemma {:induction false} ErrorRoundTrip(e: ErrorData)
    ensures DecodeError(ErrorTlv(e)) == Some(e)
    ensures First(ErrorTlv(e), P3) == None
  {
    var f, g := ErrorFields(e), [P0, P1, P2, INTEGER];
    FieldRoundTrips(P2);
    IntegerRoundTrip(P1, e.counter);
    IntegerRoundTrip(INTEGER, e.code);
    assert IntegerTlv(P1, e.counter).tag == P1 && IntegerTlv(INTEGER, e.code).tag == INTEGER;
    hide TextField, IntegerTlv, IntegerOf, Present, FirstIn;
    PresentFirsts(f, g);
    PresentHasNo(f, g, P3);
    assert g[0] == P0 && g[1] == P1 && g[2] == P2 && g[3] == INTEGER;
  }

  lemma {:induction false} UnsignedRoundTrip(u: UnsignedError)
    ensures DecodeUnsigned(Cons(SEQUENCE, Present(UnsignedFields(u)))) == Some(u)
    ensures FirstIn(Present(UnsignedFields(u)), SIGNATURE) == None
  {
    var f, g := UnsignedFields(u), [P0, P2, P4, P15];
    FieldRoundTrips(P2);
    FieldRoundTrips(P4);
    FieldRoundTrips(P15);
    hide TextField, IntField, Present, FirstIn, OptionalInt, TextOf;
    PresentFirsts(f, g);
    PresentHasNo(f, g, SIGNATURE);
    assert g[0] == P0 && g[1] == P2 && g[2] == P4 && g[3] == P15;
  }

  lemma {:induction false} SignatureOf(a: Tlv, signature: Text)
    requires a.tag != SIGNATURE
    ensures FirstIn([a, Prim(SIGNATURE, signature)], SIGNATURE) == Some(Prim(SIGNATURE, signature))
  {
    assert [a, Prim(SIGNATURE, signature)][1..] == [Prim(SIGNATURE, signature)];
  }

  /** Re-tagging the selected arm never changes what is decoded, whatever the arm holds. */
  lemma {:induction false} RetagInvariant(kids: seq<Tlv>, arm: Tag)
    requires arm in [C0, C1, C2]
    ensures DecodeResult(Message(Cons(arm, kids))) == DecodeResult(Message(Cons(SEQUENCE, kids)))
  {
    hide DecodeArm;
  }

  /** Decoding an encoded result gives the same kind and fields, under every tag its arm may carry. */
  lemma {:induction false} ResultRoundTrip(r: Result, arm: Tag)
    requires arm in [SEQUENCE, C0, C1, C2]
    ensures DecodeResult(Tagging(r, arm)) == Some(r)
  {
    var t := Cons(SEQUENCE, ArmKids(r));
    assert DecodeArm(t) == Some(r) by {
      hide DecodeData, DecodeError, DecodeUnsigned;
      match r
      case ResultSigned(d, signature) =>
        DataRoundTrip(d);
        SignatureOf(DataTlv(d), signature);
      case ErrorSigned(e, signature) =>
        ErrorRoundTrip(e);
        SignatureOf(ErrorTlv(e), signature);
      case ErrorUnsigned(u) =>
        UnsignedRoundTrip(u);
    }
    if arm != SEQUENCE { RetagInvariant(ArmKids(r), arm); }
    hide DecodeArm, ArmKids;
  }

  // ---- the octets that are signed ----

  /** The octets euiccSignEPR or euiccSignEPE cover, before the association token. */
  function SignedOctets(r: Result): (o: seq<Octet>)
    requires !r.ErrorUnsigned?
  {
    Write(if r.ResultSigned? then DataTlv(r.data) else ErrorTlv(r.error))
  }

  predicate ResultOk(r: Result) {
    r.ResultSigned? ==> AllValid(r.data.results)
  }

  lemma {:induction false} DataValid(d: ResultData)
    requires AllValid(d.results)
    ensures AllValid(Present(DataFields(d)))
  {
    var f := DataFields(d);
    PrimFieldsOk(P0);
    PrimFieldsOk(P1);
    PrimFieldsOk(P2);
    PrimFieldsOk(P3);
    assert FieldOk(f[4]);
    hide Valid, Present, TextField, AllValid;
    assert FieldOk(f[0]) && FieldOk(f[1]) && FieldOk(f[2]) && FieldOk(f[3]);
    PresentValid(f);
  }

  /** The tags of a list of objects are the tags of their spans. */
  lemma {:induction false} SpanTags(ts: seq<Tlv>, tags: seq<Tag>)
    requires |ts| == |tags| && forall i :: 0 <= i < |ts| ==> ts[i].tag == tags[i]
    ensures TagList(SpansOf(ts, 0)) == tags
  {
    hide SpansOf;
  }

  lemma {:induction false} ResultShapes()
    ensures SignedShape([P0, P1, P2, P3, SEQUENCE]) && SignedShape([P0, P1, P3, SEQUENCE])
    ensures SignedShape([P0, P1, P2, INTEGER]) && SignedShape([P0, P1, INTEGER])
  {
  }

  lemma {:induction false} DataShape(d: ResultData)
    ensures SignedShape(TagList(SpansOf(Present(DataFields(d)), 0)))
  {
    var f := DataFields(d);
    ResultShapes();
    hide SignedShape, SpansOf, TagList;
    PresentFive(f[0], f[1], f[2], f[3], f[4]);
    hide Present;
    if d.transactionID.Some? {
      SpanTags(Present(f), [P0, P1, P2, P3, SEQUENCE]);
    } else {
      SpanTags(Present(f), [P0, P1, P3, SEQUENCE]);
    }
  }

  lemma {:induction false} ErrorValid(e: ErrorData)
    ensures AllValid(Present(ErrorFields(e)))
  {
    var f := ErrorFields(e);
    PrimFieldsOk(P0);
    PrimFieldsOk(P1);
    PrimFieldsOk(P2);
    PrimFieldsOk(INTEGER);
    hide Valid, Present, TextField;
    assert FieldOk(f[0]) && FieldOk(f[1]) && FieldOk(f[2]) && FieldOk(f[3]);
    PresentValid(f);
  }

  lemma {:induction false} ErrorShape(e: ErrorData)
    ensures SignedShape(TagList(SpansOf(Present(ErrorFields(e)), 0)))
  {
    var f := ErrorFields(e);
    ResultShapes();
    hide SignedShape, SpansOf, TagList;
    PresentFour(f[0], f[1], f[2], f[3]);
    hide Present;
    if e.transactionID.Some? {
      SpanTags(Present(f), [P0, P1, P2, INTEGER]);
    } else {
      SpanTags(Present(f), [P0, P1, INTEGER]);
    }
  }

  /**
   For every signed result or error whose arm needs at most four length octets, in bare
   SEQUENCE, A0 or A1 form, the scanner cuts exactly the encoding of the signed data out
   of the encoded message.
   */
  lemma {:induction false} ExtractAgrees(r: Result, arm: Tag)
    requires ResultOk(r) && !r.ErrorUnsigned? && arm in [SEQUENCE, C0, C1]
    requires |Write(Cons(arm, ArmKids(r)))| < SPAN_LIMIT
    ensures RawSignedData(Write(Tagging(r, arm))) == Bytes(SignedOctets(r))
  {
    hide RawSignedData, Write, SignedShape, SpansOf, TagList, AllValid;
    match r
    case ResultSigned(d, signature) =>
      DataValid(d);
      DataShape(d);
      ExtractsSignedData(arm, Present(DataFields(d)), signature);
    case ErrorSigned(e, signature) =>
      ErrorValid(e);
      ErrorShape(e);
      ExtractsSignedData(arm, Present(ErrorFields(e)), signature);
    case ErrorUnsigned(_) =>
  }

  lemma {:induction false} UnsignedShape(u: UnsignedError)
    ensures var k := Present(UnsignedFields(u)); AllValid(k) && k != [] && k[|k| - 1].tag != SIGNATURE
  {
    var f := UnsignedFields(u);
    PrimFieldsOk(P0);
    PrimFieldsOk(P2);
    PrimFieldsOk(P4);
    PrimFieldsOk(P15);
    FieldRoundTrips(P2);
    FieldRoundTrips(P4);
    FieldRoundTrips(P15);
    assert FieldOk(f[0]) && FieldOk(f[1]) && FieldOk(f[2]) && FieldOk(f[3]);
    PresentValid(f);
    PresentFour(f[0], f[1], f[2], f[3]);
  }

  /** For unsigned errors it returns nothing, whatever the tag of the arm. */
  lemma {:induction false} ExtractNothingUnsigned(r: Result, arm: Tag)
    requires r.ErrorUnsigned? && arm in [SEQUENCE, C0, C1, C2]
    requires |Write(Cons(arm, ArmKids(r)))| < SPAN_LIMIT
    ensures RawSignedData(Write(Tagging(r, arm))) == Nothing
  {
    UnsignedShape(r.unsigned);
    assert forall t :: t in [SEQUENCE, C0, C1, C2] ==> TagOk(t) && IsConstructed(t);
    assert Valid(Cons(arm, ArmKids(r)));
    ExtractsNothing(Cons(arm, ArmKids(r)));
    hide *;
  }
}
