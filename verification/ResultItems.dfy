/** The objects inside a package result: profile lists, eIM results, acknowledgements (asn1/result.go). */
module ResultItems {
  import opened Octets
  import opened Tlv
  import opened Tags
  import opened Fields

  // ---- profile lists ----

  const PROFILE_ENABLED: Int64 := 1
  const PROFILE_DISABLED: Int64 := 0

  datatype ProfileInfo = ProfileInfo(iccid: Option<Text>, state: Option<Int64>, fallback: bool)

  function ProfileFields(p: ProfileInfo): (r: seq<Option<Tlv>>) {
    [ TextField(EID, p.iccid), IntField(PROFILE_STATE, p.state),
      if p.fallback then Some(Prim(FALLBACK_ATTRIBUTE, [0xff])) else None ]
  }

  function ProfileTlv(p: ProfileInfo): (r: Tlv) { Cons(PROFILE_INFO, Present(ProfileFields(p))) }

  /** An absent attribute is false; a present one holds one octet. */
  function BooleanOf(o: Option<Tlv>): (r: Option<bool>) {
    if o.None? then Some(false)
    else if |ValueOf(o.value)| != 1 then None
    else Some(ValueOf(o.value)[0] != 0)
  }

  function DecodeProfile(t: Tlv): (r: Option<ProfileInfo>) {
    if t.tag != PROFILE_INFO then None
    else
      var state :- OptionalInt(First(t, PROFILE_STATE));
      var fallback :- BooleanOf(First(t, FALLBACK_ATTRIBUTE));
      Some(ProfileInfo(TextOf(First(t, EID)), state, fallback))
  }

  datatype ProfileList = Profiles(profiles: seq<ProfileInfo>) | ListError(code: Int64)

  function ProfileListTlv(l: ProfileList): (r: Tlv) {
    match l
    case Profiles(ps) => Cons(PROFILE_INFO_LIST, [Cons(SEQUENCE, EncodeAll(ps, ProfileTlv))])
    case ListError(code) => Cons(PROFILE_INFO_LIST, [IntegerTlv(INTEGER, code)])
  }

  /** profileInfoListErrorTLV. */
  function ListErrorIn(t: Tlv): (r: Option<Tlv>) {
    if t.tag == INTEGER || t.tag == P1 then Some(t)
    else if t.tag == C1 && t.Cons? && |t.kids| == 1 && t.kids[0].tag == INTEGER then Some(t.kids[0])
    else None
  }

  function DecodeProfileList(t: Tlv): (r: Option<ProfileList>) {
    if t.tag != PROFILE_INFO_LIST || !t.Cons? || |t.kids| != 1 then None
    else
      var child := t.kids[0];
      var err := ListErrorIn(child);
      if err.Some? then
        var code :- IntegerOf(err.value);
        Some(ListError(code))
      else
        var ok := if child.tag == C0 then AsSequence(child) else child;
        if ok.tag != SEQUENCE then None
        else
          var ps :- DecodeAll(if ok.Cons? then ok.kids else [], DecodeProfile);
          Some(Profiles(ps))
  }

  lemma {:induction false} ProfileRoundTrip(p: ProfileInfo)
    ensures DecodeProfile(ProfileTlv(p)) == Some(p)
  {
    var f, g := ProfileFields(p), [EID, PROFILE_STATE, FALLBACK_ATTRIBUTE];
    FieldRoundTrips(EID);
    FieldRoundTrips(PROFILE_STATE);
    hide TextField, IntField, OptionalInt, TextOf, Present, FirstIn;
    PresentFirsts(f, g);
    assert g[0] == EID && g[1] == PROFILE_STATE && g[2] == FALLBACK_ATTRIBUTE;
  }

  lemma {:induction false} ProfilesDecode(ps: seq<ProfileInfo>)
    ensures DecodeAll(EncodeAll(ps, ProfileTlv), DecodeProfile) == Some(ps)
  {
    hide ProfileTlv, DecodeProfile;
    var ts := EncodeAll(ps, ProfileTlv);
    forall i | 0 <= i < |ps| ensures DecodeProfile(ts[i]) == Some(ps[i]) { ProfileRoundTrip(ps[i]); }
    DecodeAllOf(ts, DecodeProfile, ps);
  }

  /** A profile list of any length decodes to itself. */
  lemma {:induction false} ProfileListRoundTrip(l: ProfileList)
    ensures DecodeProfileList(ProfileListTlv(l)) == Some(l)
  {
    match l
    case Profiles(ps) => ProfilesDecode(ps);
    case ListError(code) => IntegerRoundTrip(INTEGER, code);
  }

  /** The success arm as a bare SEQUENCE and as [0] decode alike, whatever it holds. */
  lemma {:induction false} ProfileListRetag(kids: seq<Tlv>)
    ensures DecodeProfileList(Cons(PROFILE_INFO_LIST, [Cons(C0, kids)])) ==
            DecodeProfileList(Cons(PROFILE_INFO_LIST, [Cons(SEQUENCE, kids)]))
  {
    hide DecodeProfile;
  }

  lemma {:induction false} ProfileListValid(l: ProfileList)
    ensures Valid(ProfileListTlv(l))
  {
    match l
    case Profiles(ps) =>
      var ts := EncodeAll(ps, ProfileTlv);
      forall i | 0 <= i < |ts| ensures Valid(ts[i]) { ProfileValid(ps[i]); }
      AllValidIff(ts);
      OneValid(Cons(SEQUENCE, ts));
    case ListError(code) => OneValid(IntegerTlv(INTEGER, code));
  }

  lemma {:induction false} ProfileValid(p: ProfileInfo)
    ensures Valid(ProfileTlv(p))
  {
    PrimFieldsOk(EID);
    PrimFieldsOk(PROFILE_STATE);
    PrimFieldsOk(FALLBACK_ATTRIBUTE);
    var f := ProfileFields(p);
    assert FieldOk(f[0]) && FieldOk(f[1]) && FieldOk(f[2]);
    PresentValid(f);
  }

  // ---- eIM results ----

  datatype AddEimResult = AddedWithToken(token: Int64) | AddCode(code: Int64)

  function AddEimTlv(a: AddEimResult): (r: Tlv) {
    match a
    case AddedWithToken(token) => IntegerTlv(P4, token)
    case AddCode(code) => IntegerTlv(INTEGER, code)
  }

  function DecodeAddEim(t: Tlv): (r: Option<AddEimResult>) {
    if t.tag == P4 then
      var token :- IntegerOf(t);
      Some(AddedWithToken(token))
    else if t.tag == INTEGER then
      var code :- IntegerOf(t);
      Some(AddCode(code))
    else None
  }

  lemma {:induction false} AddEimRoundTrip(a: AddEimResult)
    ensures DecodeAddEim(AddEimTlv(a)) == Some(a)
  {
    match a
    case AddedWithToken(token) => IntegerRoundTrip(P4, token);
    case AddCode(code) => IntegerRoundTrip(INTEGER, code);
  }

  datatype EimIdInfo = EimIdInfo(eimID: Text, idType: Option<Int64>)

  function EimIdTlv(i: EimIdInfo): (r: Tlv) {
    Cons(SEQUENCE, Present([Some(Prim(P0, i.eimID)), IntField(P2, i.idType)]))
  }

  function DecodeEimId(t: Tlv): (r: Option<EimIdInfo>) {
    if t.tag != SEQUENCE then None
    else
      var id :- First(t, P0);
      var idType :- OptionalInt(First(t, P2));
      Some(EimIdInfo(ValueOf(id), idType))
  }

  datatype ListEimResult = EimIds(ids: seq<EimIdInfo>) | EimListError(code: Int64)

  function ListEimTlv(l: ListEimResult): (r: Tlv) {
    match l
    case EimIds(ids) => Cons(SEQUENCE, EncodeAll(ids, EimIdTlv))
    case EimListError(code) => IntegerTlv(INTEGER, code)
  }

  function DecodeListEim(t: Tlv): (r: Option<ListEimResult>) {
    if t.tag == INTEGER then
      var code :- IntegerOf(t);
      Some(EimListError(code))
    else if t.tag != SEQUENCE then None
    else
      var ids :- DecodeAll(if t.Cons? then t.kids else [], DecodeEimId);
      Some(EimIds(ids))
  }

  lemma {:induction false} EimIdRoundTrip(i: EimIdInfo)
    ensures DecodeEimId(EimIdTlv(i)) == Some(i)
  {
    var f, g := [Some(Prim(P0, i.eimID)), IntField(P2, i.idType)], [P0, P2];
    FieldRoundTrips(P2);
    PresentFirst(f, g, 0);
    PresentFirst(f, g, 1);
  }

  lemma {:induction false} ListEimRoundTrip(l: ListEimResult)
    ensures DecodeListEim(ListEimTlv(l)) == Some(l)
  {
    match l
    case EimIds(ids) =>
      var ts := EncodeAll(ids, EimIdTlv);
      forall i | 0 <= i < |ids| ensures DecodeEimId(ts[i]) == Some(ids[i]) { EimIdRoundTrip(ids[i]); }
      DecodeAllOf(ts, DecodeEimId, ids);
    case EimListError(code) => IntegerRoundTrip(INTEGER, code);
  }

  // ---- acknowledgements ----

  function AckItem(n: Int64): (r: Tlv) { IntegerTlv(P0, n) }

  function AckTlv(numbers: seq<Int64>): (r: Tlv) { Cons(EIM_ACK, EncodeAll(numbers, AckItem)) }

  function DecodeAckItem(t: Tlv): (r: Option<Int64>) { if t.tag != P0 then None else IntegerOf(t) }

  function DecodeAck(t: Tlv): (r: Option<seq<Int64>>) {
    if t.tag != EIM_ACK then None else DecodeAll(if t.Cons? then t.kids else [], DecodeAckItem)
  }

  lemma {:induction false} AckRoundTrip(numbers: seq<Int64>)
    ensures DecodeAck(AckTlv(numbers)) == Some(numbers)
  {
    var ts := EncodeAll(numbers, AckItem);
    forall i | 0 <= i < |numbers| ensures DecodeAckItem(ts[i]) == Some(numbers[i]) { IntegerRoundTrip(P0, numbers[i]); }
    DecodeAllOf(ts, DecodeAckItem, numbers);
  }
}
