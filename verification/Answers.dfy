/** What the eIM concludes from the result the device signs for each kind of operation. */
module Answers {
  import opened Octets
  import opened Tlv
  import opened Tags
  import opened Fields
  import opened EuiccPackage
  import opened ResultItems
  import opened Outcome
  import opened Device
  import R = PackageResult
  import SpanScanner

  /** Success, with the token of an addEim and the profiles of a listing. */
  function Expected(op: Op, m: Inventory, order: seq<Text>): (r: Verdict)
    requires forall key :: key in order ==> key in m
  {
    match op
    case EcoOp(AddEim(c)) => Ruled(true, Some(AddToken(c)), [])
    case PsmoOp(ListProfileInfo(_)) => Ruled(true, None, ViewsOf(Listing(m, order)))
    case _ => Ruled(true, None, [])
  }

  lemma {:induction false} TagNumbers()
    ensures TagNumber(PROFILE_INFO_LIST) == 45 && TagNumber(SET_DEFAULT_DP) == 101
    ensures forall t ::
              t in [P3, P4, [0x85], C6, P7, [0x8d], [0x8e], C8, P9, [0x8a], C11, PROFILE_INFO_LIST, SET_DEFAULT_DP]
              ==> IsContextSpecific(t)
  {
    assert Base128([0x2d]) == 45 by { assert [0x2d][..0] == []; }
    assert Base128([0x65]) == 101 by { assert [0x65][..0] == []; }
    assert PROFILE_INFO_LIST[1..] == [0x2d] && SET_DEFAULT_DP[1..] == [0x65];
  }

  lemma {:induction false} Lone(t: Tlv, n: nat)
    requires Outcome.Answers(t, n)
    ensures ResultByTag([t], n) == Some(t)
  {
  }

  lemma {:induction false} PsmoAnswer(p: Psmo, m: Inventory, order: seq<Text>)
    requires forall key :: key in order ==> key in m
    ensures PsmoVerdict(p, [PsmoResult(p, m, order)]) == Expected(PsmoOp(p), m, order)
  {
    var t := PsmoResult(p, m, order);
    TagNumbers();
    IntegerRoundTrip(t.tag, 0);
    IntegerRoundTrip(INTEGER, 0);
    assert Outcome.Answers(t, ResultTag(PsmoOp(p)));
    Lone(t, ResultTag(PsmoOp(p)));
    hide ResultByTag, IntegerOf, TagNumber, Base128, IntegerTlv;
    if p.ListProfileInfo? {
      ProfileListRoundTrip(Profiles(Listing(m, order)));
      hide DecodeProfileList, ProfileListTlv, ViewsOf, Listing;
    }
  }

  lemma {:induction false} EcoAnswer(e: Eco, eimID: Text, m: Inventory, order: seq<Text>)
    requires forall key :: key in order ==> key in m
    ensures EcoVerdict(e, [EcoResult(e, eimID)]) == Expected(EcoOp(e), m, order)
  {
    var t := EcoResult(e, eimID);
    TagNumbers();
    assert Outcome.Answers(t, ResultTag(EcoOp(e)));
    Lone(t, ResultTag(EcoOp(e)));
    hide ResultByTag, TagNumber, Base128;
    match e
    case AddEim(c) => AddEimRoundTrip(AddedWithToken(AddToken(c)));
    case DeleteEim(_) => IntegerRoundTrip(P9, 2);
    case UpdateEim(_) => IntegerRoundTrip([0x8a], 0);
    case ListEim => ListEimRoundTrip(EimIds([EimIdInfo(eimID, None)]));
  }

  /** Every result of the device is read as a success, with the device's own token and profiles. */
  lemma {:induction false} AnswerIsAccepted(pkg: Package, eimID: Text, m: Inventory, order: seq<Text>)
    requires (forall key :: key in order ==> key in m) && !Single(pkg).NoOp?
    ensures OperationVerdict(pkg, [ResultData(pkg, eimID, m, order).value]) == Expected(Single(pkg), m, order)
  {
    hide PsmoVerdict, EcoVerdict, PsmoResult, EcoResult, Expected;
    match Single(pkg)
    case NoOp =>
    case PsmoOp(p) => PsmoAnswer(p, m, order);
    case EcoOp(e) => EcoAnswer(e, eimID, m, order);
  }

  // ---- the result on the wire ----

  lemma {:induction false} IntegerValid(tag: Tag, v: Int64)
    requires tag in [P3, P4, [0x85], P7, [0x8d], [0x8e], P9, [0x8a], INTEGER]
    ensures Valid(IntegerTlv(tag, v))
  {
  }

  lemma {:induction false} ListEimValid(eimID: Text)
    ensures Valid(ListEimTlv(EimIds([EimIdInfo(eimID, None)])))
  {
    var i := EimIdInfo(eimID, None);
    PresentValid([Some(Prim(P0, i.eimID)), IntField(P2, i.idType)]);
    assert Valid(EimIdTlv(i));
    hide EimIdTlv;
    assert EncodeAll([i], EimIdTlv) == [EimIdTlv(i)];
    OneValid(EimIdTlv(i));
  }

  lemma {:induction false} AnswerValid(pkg: Package, eimID: Text, m: Inventory, order: seq<Text>)
    requires (forall key :: key in order ==> key in m) && !Single(pkg).NoOp?
    ensures Valid(ResultData(pkg, eimID, m, order).value)
  {
    match Single(pkg)
    case PsmoOp(p) => PsmoAnswerValid(p, m, order);
    case EcoOp(e) => EcoAnswerValid(e, eimID);
    case NoOp =>
  }

  lemma {:induction false} PsmoAnswerValid(p: Psmo, m: Inventory, order: seq<Text>)
    requires forall key :: key in order ==> key in m
    ensures Valid(PsmoResult(p, m, order))
  {
    var t := PsmoResult(p, m, order);
    match p
    case ListProfileInfo(_) => ProfileListValid(Profiles(Listing(m, order)));
    case GetRat =>
    case SetDefaultDp(_) =>
      IntegerValid(INTEGER, 0);
      OneValid(IntegerTlv(INTEGER, 0));
    case _ => IntegerValid(t.tag, 0);
  }

  lemma {:induction false} EcoAnswerValid(e: Eco, eimID: Text)
    ensures Valid(EcoResult(e, eimID))
  {
    match e
    case AddEim(c) => OneValid(AddEimTlv(AddedWithToken(AddToken(c))));
    case DeleteEim(_) => IntegerValid(P9, 2);
    case UpdateEim(_) => IntegerValid([0x8a], 0);
    case ListEim =>
      ListEimValid(eimID);
      OneValid(ListEimTlv(EimIds([EimIdInfo(eimID, None)])));
  }

  lemma {:induction false} SignedResultValid(d: R.ResultData, signature: Text)
    requires AllValid(d.results)
    ensures Valid(R.ResultTlv(R.ResultSigned(d, signature)))
  {
    R.DataValid(d);
    var r := R.ResultSigned(d, signature);
    assert Valid(R.DataTlv(d));
    hide R.DataTlv;
    var kids := R.ArmKids(r);
    assert kids[1..] == [Prim(SIGNATURE, signature)];
    OneValid(Prim(SIGNATURE, signature));
    assert AllValid(kids);
    assert Valid(Cons(SEQUENCE, kids));
    OneValid(Cons(SEQUENCE, kids));
  }

  /** The arm of a result needs at most four length octets. */
  predicate Scannable(r: R.Result) {
    |Write(Cons(SEQUENCE, R.ArmKids(r)))| < SpanScanner.SPAN_LIMIT && Fits(R.ResultTlv(r))
  }

  /**
   A result the device signed over its own token is accepted by the eIM if the eIM holds
   the same token: the octets signed and the octets verified are the same.
   */
  lemma {:induction false} SignedIsVerified(
    d: Device, request: Signed, order: seq<Text>, sign: seq<Octet> -> Text, verify: Verifier
  )
    requires (forall key :: key in order ==> key in d.profiles) && !Single(request.pkg).NoOp?
    requires forall m :: verify(m, sign(m))
    requires Scannable(SignedResult(d, request, order, sign).value)
    ensures var r := SignedResult(d, request, order, sign).value;
            PackageVerdict(request, Write(R.ResultTlv(r)), TokenOf(d.tokens, request.eimID), verify) ==
            Expected(Single(request.pkg), d.profiles, order)
  {
    var r := SignedResult(d, request, order, sign).value;
    var t := ResultData(request.pkg, request.eimID, d.profiles, order).value;
    AnswerValid(request.pkg, request.eimID, d.profiles, order);
    OneValid(t);
    AnswerIsAccepted(request.pkg, request.eimID, d.profiles, order);
    SignedResultValid(r.data, r.signature);
    hide Valid, AllValid, ResultData, Expected, OperationVerdict, Write, ParseOne, R.DataTlv, R.ResultTlv,
         R.Tagging, R.DecodeResult, SpanScanner.RawSignedData;
    ParseOneWrite(R.ResultTlv(r));
    assert R.ResultTlv(r) == R.Tagging(r, SEQUENCE) by { SameTree(r); }
    R.ResultRoundTrip(r, SEQUENCE);
    R.ExtractAgrees(r, SEQUENCE);
    assert Matches(request, r.data.eimID, r.data.counter, r.data.transactionID);
  }

  lemma {:induction false} SameTree(r: R.Result)
    ensures R.ResultTlv(r) == R.Tagging(r, SEQUENCE)
  {
  }
}
