/**
 What the eIM makes of a package result (euiccpkg/service.go, euiccpkg/operation.go):
 the octets a signature covers, the match with the request, and the outcome of the
 package's single operation. The signature check is a parameter.
 */
module Outcome {
  import opened Octets
  import opened Tlv
  import opened Tags
  import opened Fields
  import opened EuiccPackage
  import opened ResultItems
  import R = PackageResult
  import SpanScanner

  // ---- the operation of a single-operation package ----

  datatype Op = NoOp | PsmoOp(psmo: Psmo) | EcoOp(eco: Eco)

  /** packagePSMO and packageECO. */
  function Single(pkg: Package): (r: Op) {
    match pkg
    case Psmos(ps) => if |ps| == 1 then PsmoOp(ps[0]) else NoOp
    case Ecos(es) => if |es| == 1 then EcoOp(es[0]) else NoOp
  }

  /** resultTag. */
  function ResultTag(op: Op): (n: nat) {
    match op
    case NoOp => 0
    case PsmoOp(Enable(_, _)) => 3
    case PsmoOp(Disable(_)) => 4
    case PsmoOp(Delete(_)) => 5
    case PsmoOp(ListProfileInfo(_)) => 45
    case PsmoOp(GetRat) => 6
    case PsmoOp(ConfigureImmediateEnable(_)) => 7
    case PsmoOp(SetFallback(_)) => 13
    case PsmoOp(UnsetFallback) => 14
    case PsmoOp(SetDefaultDp(_)) => 101
    case EcoOp(AddEim(_)) => 8
    case EcoOp(DeleteEim(_)) => 9
    case EcoOp(UpdateEim(_)) => 10
    case EcoOp(ListEim) => 11
  }

  // ---- the outcome ----

  /** The ICCID is in hexadecimal. */
  datatype ProfileView = ProfileView(iccid: Text, enabled: bool, fallback: bool)

  datatype Verdict =
    | Ruled(ok: bool, token: Option<Int64>, profiles: seq<ProfileView>)
    | NotFound
    | Rejected

  predicate Answers(t: Tlv, n: nat) { IsContextSpecific(t.tag) && TagNumber(t.tag) == n }

  function ResultByTag(results: seq<Tlv>, n: nat): (r: Option<Tlv>)
    ensures r.Some? ==> exists i :: 0 <= i < |results| && r.value == results[i] && Answers(results[i], n)
                                    && forall j :: 0 <= j < i ==> !Answers(results[j], n)
    ensures r.None? ==> forall t :: t in results ==> !Answers(t, n)
  {
    if results == [] then None else if Answers(results[0], n) then Some(results[0]) else ResultByTag(results[1..], n)
  }

  /** Profiles without an ICCID are dropped. */
  function ViewsOf(ps: seq<ProfileInfo>): (r: seq<ProfileView>) {
    if ps == [] then []
    else
      var last := ps[|ps| - 1];
      var init := ViewsOf(ps[..|ps| - 1]);
      if last.iccid.None? || last.iccid.value == [] then init
      else init + [ProfileView(Hex(last.iccid.value), last.state == Some(PROFILE_ENABLED), last.fallback)]
  }

  /** The loop of listProfileInfoResult. */
  method CollectViews(ps: seq<ProfileInfo>) returns (r: seq<ProfileView>)
    ensures r == ViewsOf(ps)
  {
    r := [];
    assert ps[..|ps|] == ps;
    for i := 0 to |ps|
      invariant r == ViewsOf(ps[..i])
    {
      assert ps[..i + 1][..i] == ps[..i];
      var profile := ps[i];
      if profile.iccid.None? || |profile.iccid.value| == 0 { continue; }
      var enabled := false;
      if profile.state.Some? { enabled := profile.state.value == PROFILE_ENABLED; }
      r := r + [ProfileView(Hex(profile.iccid.value), enabled, profile.fallback)];
    }
  }

  function IntegerVerdict(t: Tlv, ok: set<int>): (r: Verdict) {
    var v := IntegerOf(t);
    if v.None? then Rejected else Ruled(v.value in ok, None, [])
  }

  function ListVerdict(t: Tlv): (r: Verdict) {
    match DecodeProfileList(t)
    case None => Rejected
    case Some(ListError(_)) => Ruled(false, None, [])
    case Some(Profiles(ps)) => Ruled(true, None, ViewsOf(ps))
  }

  function DefaultDpVerdict(t: Tlv): (r: Verdict) {
    if t.tag != SET_DEFAULT_DP || !t.Cons? || |t.kids| != 1 then Rejected else IntegerVerdict(t.kids[0], {0})
  }

  /** A lone INTEGER stands for the integer alternative of the one operation. */
  predicate BaseTypeInteger(p: Psmo, results: seq<Tlv>) {
    !p.ListProfileInfo? && !p.GetRat? && !p.SetDefaultDp? && |results| == 1 && results[0].tag == INTEGER
  }

  function PsmoVerdict(p: Psmo, results: seq<Tlv>): (r: Verdict) {
    var raw := ResultByTag(results, ResultTag(PsmoOp(p)));
    if raw.Some? then
      if p.ListProfileInfo? then ListVerdict(raw.value)
      else if p.GetRat? then Ruled(true, None, [])
      else if p.SetDefaultDp? then DefaultDpVerdict(raw.value)
      else IntegerVerdict(raw.value, {0})
    else if BaseTypeInteger(p, results) then IntegerVerdict(results[0], {0})
    else NotFound
  }

  function AddVerdict(t: Tlv): (r: Verdict) {
    if !t.Cons? || |t.kids| != 1 then Rejected
    else
      match DecodeAddEim(t.kids[0])
      case None => Rejected
      case Some(AddedWithToken(token)) => Ruled(true, Some(token), [])
      case Some(AddCode(code)) => Ruled(code == 0, None, [])
  }

  function ListEimVerdict(t: Tlv): (r: Verdict) {
    if !t.Cons? || |t.kids| != 1 then Rejected
    else
      match DecodeListEim(t.kids[0])
      case None => Rejected
      case Some(EimListError(_)) => Ruled(false, None, [])
      case Some(EimIds(_)) => Ruled(true, None, [])
  }

  function EcoVerdict(e: Eco, results: seq<Tlv>): (r: Verdict) {
    var raw := ResultByTag(results, ResultTag(EcoOp(e)));
    if raw.None? then NotFound
    else
      match e
      case AddEim(_) => AddVerdict(raw.value)
      case DeleteEim(_) => IntegerVerdict(raw.value, {0, 2})
      case UpdateEim(_) => IntegerVerdict(raw.value, {0})
      case ListEim => ListEimVerdict(raw.value)
  }

  /** operationResult. */
  function OperationVerdict(pkg: Package, results: seq<Tlv>): (r: Verdict) {
    match Single(pkg)
    case NoOp => Ruled(true, None, [])
    case PsmoOp(p) => PsmoVerdict(p, results)
    case EcoOp(e) => EcoVerdict(e, results)
  }

  // ---- signatures ----

  /** signatureInput: the signed object, then the association token as [4] INTEGER, zero when there is none. */
  function SignatureInput(signed: seq<Octet>, token: Option<Int64>): (r: seq<Octet>) {
    signed + Write(IntegerTlv(P4, if token.Some? then token.value else 0))
  }

  type Verifier = (seq<Octet>, Text) -> bool

  function TextBytes(o: Option<Text>): (r: Text) { if o.Some? then o.value else [] }

  /** matchSignedResult, without an expected sequence number. */
  predicate Matches(request: Signed, eimID: Text, counter: Int64, transactionID: Option<Text>) {
    eimID == request.eimID && TextBytes(transactionID) == TextBytes(request.transactionID) && counter == request.counter
  }

  /** verifyResult. */
  function ResultVerdict(
    request: Signed, result: R.Result, raw: seq<Octet>, token: Option<Int64>, verify: Verifier
  ): (r: Verdict) {
    var input := SignatureInput(raw, token);
    match result
    case ResultSigned(d, signature) =>
      if !verify(input, signature) || !Matches(request, d.eimID, d.counter, d.transactionID) then Rejected
      else OperationVerdict(request.pkg, d.results)
    case ErrorSigned(e, signature) =>
      if !verify(input, signature) || !Matches(request, e.eimID, e.counter, e.transactionID) then Rejected
      else Ruled(false, None, [])
    case ErrorUnsigned(u) =>
      if u.eimID != request.eimID || TextBytes(u.transactionID) != TextBytes(request.transactionID) then Rejected
      else Ruled(false, None, [])
  }

  function DecodeResultBytes(data: seq<Octet>): (r: Option<R.Result>) {
    var t :- ParseOne(data);
    R.DecodeResult(t)
  }

  /** VerifyPackageResult. */
  function PackageVerdict(request: Signed, data: seq<Octet>, token: Option<Int64>, verify: Verifier): (r: Verdict) {
    var result := DecodeResultBytes(data);
    var raw := SpanScanner.RawSignedData(data);
    if result.None? || raw.Refused? then Rejected
    else ResultVerdict(request, result.value, if raw.Bytes? then raw.octets else [], token, verify)
  }

  /** The verdict on a well-signed result depends on the request and the results alone. */
  lemma {:induction false} VerdictIsStable(
    request: Signed, data: seq<Octet>, a: Option<Int64>, b: Option<Int64>, verify: Verifier
  )
    ensures PackageVerdict(request, data, a, verify).Rejected?
            || PackageVerdict(request, data, b, verify).Rejected?
            || PackageVerdict(request, data, a, verify) == PackageVerdict(request, data, b, verify)
  {
    hide OperationVerdict, DecodeResultBytes, SpanScanner.RawSignedData, SignatureInput, TextBytes;
  }
}
