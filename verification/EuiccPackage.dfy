/** The signed eUICC package request and its parts (asn1/euicc_package.go) as TLV trees. */
module EuiccPackage {
  import opened Octets
  import opened Tlv
  import opened Tags
  import opened Fields
  import BitString

  // ---- eIM configuration data ----

  datatype X509Choice = PublicKeyInfo(data: Tlv) | Certificate(data: Tlv)

  datatype EimConfig = EimConfig(
    eimID: Text,
    fqdn: Option<Text>,
    idType: Option<Int64>,
    counter: Option<Int64>,
    token: Option<Int64>,
    publicKey: Option<X509Choice>,
    trustedTls: Option<X509Choice>,
    protocols: Option<seq<bool>>,
    ciPkid: Option<Text>,
    indirectDownload: bool,
    proprietary: Option<Tlv>)

  function X509Field(tag: Tag, o: Option<X509Choice>): (r: Option<Tlv>) {
    if o.None? then None
    else Some(Cons(tag, [Cons(if o.value.PublicKeyInfo? then C0 else C1, [o.value.data])]))
  }

  /** x509ChoiceArmObject: the object nested whole, or its fields directly under the arm. */
  function ArmObject(arm: Tlv): (r: Option<Tlv>) {
    if !arm.Cons? then None
    else if |arm.kids| == 1 && arm.kids[0].tag == SEQUENCE then Some(arm.kids[0])
    else if |arm.kids| > 1 then Some(Cons(SEQUENCE, arm.kids))
    else None
  }

  function X509Of(o: Option<Tlv>): (r: Option<Option<X509Choice>>) {
    if o.None? then Some(None)
    else if !o.value.Cons? || |o.value.kids| != 1 then None
    else
      var arm := o.value.kids[0];
      var data :- ArmObject(arm);
      if arm.tag == C0 then Some(Some(PublicKeyInfo(data)))
      else if arm.tag == C1 then Some(Some(Certificate(data)))
      else None
  }

  function ConfigFields(c: EimConfig): (r: seq<Option<Tlv>>) {
    [ Some(Prim(P0, c.eimID)),
      TextField(P1, c.fqdn),
      IntField(P2, c.idType),
      IntField(P3, c.counter),
      IntField(P4, c.token),
      X509Field(C5, c.publicKey),
      X509Field(C6, c.trustedTls),
      if c.protocols.Some? then Some(Prim(P7, BitString.Pack(c.protocols.value))) else None,
      TextField(P8, c.ciPkid),
      FlagField(P9, c.indirectDownload),
      c.proprietary ]
  }

  const CONFIG_TAGS: seq<Tag> := [P0, P1, P2, P3, P4, C5, C6, P7, P8, P9, C10]

  function ConfigTlv(c: EimConfig): (r: Tlv) { Cons(SEQUENCE, Present(ConfigFields(c))) }

  function DecodeConfig(t: Tlv): (r: Option<EimConfig>) {
    if t.tag != SEQUENCE then None
    else
      var id :- First(t, P0);
      var idType :- OptionalInt(First(t, P2));
      var counter :- OptionalInt(First(t, P3));
      var token :- OptionalInt(First(t, P4));
      var publicKey :- X509Of(First(t, C5));
      var trusted :- X509Of(First(t, C6));
      var bits :- BitsOf(First(t, P7));
      Some(EimConfig(ValueOf(id), TextOf(First(t, P1)), idType, counter, token, publicKey, trusted, bits,
                     TextOf(First(t, P8)), First(t, P9).Some?, First(t, C10)))
  }

  /** A raw sub-object: a well-formed tree with the tag its place asks for. */
  predicate RawOk(t: Tlv, tag: Tag) { t.tag == tag && Valid(t) }

  predicate ConfigOk(c: EimConfig) {
    && (c.publicKey.Some? ==> RawOk(c.publicKey.value.data, SEQUENCE))
    && (c.trustedTls.Some? ==> RawOk(c.trustedTls.value.data, SEQUENCE))
    && (c.proprietary.Some? ==> RawOk(c.proprietary.value, C10))
  }

  lemma {:induction false} X509RoundTrip(tag: Tag, o: Option<X509Choice>)
    requires o.Some? ==> o.value.data.tag == SEQUENCE
    ensures X509Of(X509Field(tag, o)) == Some(o)
  {
  }

  lemma {:induction false} ConfigTags()
    ensures Distinct(CONFIG_TAGS)
    ensures CONFIG_TAGS == [P0, P1, P2, P3, P4, C5, C6, P7, P8, P9, C10]
  {
  }

  lemma {:induction false} ConfigTagged(c: EimConfig)
    requires ConfigOk(c)
    ensures Tagged(ConfigFields(c), CONFIG_TAGS)
  {
    FieldRoundTrips(P1);
    FieldRoundTrips(P2);
    FieldRoundTrips(P3);
    FieldRoundTrips(P4);
    FieldRoundTrips(P8);
    FieldRoundTrips(P9);
    assert HasTag(X509Field(C5, c.publicKey), C5) && HasTag(X509Field(C6, c.trustedTls), C6);
    assert HasTag(c.proprietary, C10);
    hide Valid, TextField, IntField, FlagField, X509Field, BitString.Pack;
    var f, g := ConfigFields(c), CONFIG_TAGS;
    assert HasTag(f[0], P0) && HasTag(f[7], P7);
    assert g == [P0, P1, P2, P3, P4, C5, C6, P7, P8, P9, C10];
    hide CONFIG_TAGS, P0, P1, P2, P3, P4, P7, P8, P9, C5, C6, C10;
  }

  lemma {:induction false} ConfigLookups(c: EimConfig)
    requires ConfigOk(c)
    ensures var t, f := ConfigTlv(c), ConfigFields(c);
            && |f| == 11
            && First(t, P0) == f[0] && First(t, P1) == f[1] && First(t, P2) == f[2] && First(t, P3) == f[3]
            && First(t, P4) == f[4] && First(t, C5) == f[5] && First(t, C6) == f[6] && First(t, P7) == f[7]
            && First(t, P8) == f[8] && First(t, P9) == f[9] && First(t, C10) == f[10]
  {
    hide ConfigFields, Distinct, ConfigOk, Present, FirstIn;
    var f, g := ConfigFields(c), CONFIG_TAGS;
    ConfigTags();
    ConfigTagged(c);
    PresentFirsts(f, g);
    assert |f| == 11;
    assert g[0] == P0 && g[1] == P1 && g[2] == P2 && g[3] == P3 && g[4] == P4 && g[5] == C5 && g[6] == C6 && g[7] == P7
           && g[8] == P8 && g[9] == P9 && g[10] == C10;
  }

  /** Decoding an encoded configuration gives it back. */
  lemma {:induction false} ConfigRoundTrip(c: EimConfig)
    requires ConfigOk(c)
    ensures DecodeConfig(ConfigTlv(c)) == Some(c)
  {
    ConfigLookups(c);
    FieldRoundTrips(P1);
    FieldRoundTrips(P2);
    FieldRoundTrips(P3);
    FieldRoundTrips(P4);
    FieldRoundTrips(P8);
    FieldRoundTrips(P9);
    X509RoundTrip(C5, c.publicKey);
    X509RoundTrip(C6, c.trustedTls);
    if c.protocols.Some? { BitString.UnpackPack(c.protocols.value); }
    hide First, Present, Valid, X509Field, X509Of, TextField, IntField, BitString.Pack, BitString.Unpack;
  }

  // ---- eIM configuration operations ----

  datatype Eco = AddEim(config: EimConfig) | DeleteEim(eimID: Text) | UpdateEim(config: EimConfig) | ListEim

  function EcoTlv(e: Eco): (r: Tlv) {
    match e
    case AddEim(config) => Cons(C8, Present(ConfigFields(config)))
    case DeleteEim(eimID) => Cons(C9, [Prim(P0, eimID)])
    case UpdateEim(config) => Cons(C10, Present(ConfigFields(config)))
    case ListEim => Cons(C11, [])
  }

  function DecodeEco(t: Tlv): (r: Option<Eco>) {
    if t.tag == C8 then
      var config :- DecodeConfig(AsSequence(t));
      Some(AddEim(config))
    else if t.tag == C9 then
      var id :- First(t, P0);
      Some(DeleteEim(ValueOf(id)))
    else if t.tag == C10 then
      var config :- DecodeConfig(AsSequence(t));
      Some(UpdateEim(config))
    else if t.tag == C11 then Some(ListEim)
    else None
  }

  predicate EcoOk(e: Eco) {
    (e.AddEim? || e.UpdateEim?) ==> ConfigOk(e.config)
  }

  lemma {:induction false} EcoRoundTrip(e: Eco)
    requires EcoOk(e)
    ensures DecodeEco(EcoTlv(e)) == Some(e)
  {
    if e.AddEim? || e.UpdateEim? { ConfigRoundTrip(e.config); }
  }

  // ---- profile state management operations ----

  /** The object identifier is kept as its contents octets; no octets means it is absent. */
  datatype ImmediateEnable = ImmediateEnable(flag: bool, smdpOid: Text, smdpAddress: Option<Text>)

  datatype Psmo =
    | Enable(iccid: Text, rollback: bool)
    | Disable(iccid: Text)
    | Delete(iccid: Text)
    | ListProfileInfo(request: Tlv)
    | GetRat
    | ConfigureImmediateEnable(payload: Option<ImmediateEnable>)
    | SetFallback(iccid: Text)
    | UnsetFallback
    | SetDefaultDp(address: Text)

  function ImmediateFields(i: ImmediateEnable): (r: seq<Option<Tlv>>) {
    [FlagField(P0, i.flag), if i.smdpOid != [] then Some(Prim(P1, i.smdpOid)) else None, TextField(P2, i.smdpAddress)]
  }

  function PsmoTlv(p: Psmo): (r: Tlv) {
    match p
    case Enable(iccid, rollback) => Cons(C3, Present([Some(Prim(EID, iccid)), FlagField(NULL, rollback)]))
    case Disable(iccid) => Cons(C4, [Prim(EID, iccid)])
    case Delete(iccid) => Cons(C5, [Prim(EID, iccid)])
    case ListProfileInfo(request) => request
    case GetRat => Cons(C6, [])
    case ConfigureImmediateEnable(None) => Cons(C7, [])
    case ConfigureImmediateEnable(Some(i)) => Cons(C7, Present(ImmediateFields(i)))
    case SetFallback(iccid) => Cons(C8, [Prim(EID, iccid)])
    case UnsetFallback => Cons(C9, [])
    case SetDefaultDp(address) => Cons(SET_DEFAULT_DP, [Prim(UTF8, address)])
  }

  function DecodeImmediate(t: Tlv): (r: Option<ImmediateEnable>) {
    var oid := First(t, P1);
    if oid.Some? && ValueOf(oid.value) == [] then None
    else Some(ImmediateEnable(First(t, P0).Some?, if oid.Some? then ValueOf(oid.value) else [], TextOf(First(t, P2))))
  }

  function DecodePsmo(t: Tlv): (r: Option<Psmo>) {
    if t.tag == C3 then
      var iccid :- First(t, EID);
      Some(Enable(ValueOf(iccid), First(t, NULL).Some?))
    else if t.tag == C4 then
      var iccid :- First(t, EID);
      Some(Disable(ValueOf(iccid)))
    else if t.tag == C5 then
      var iccid :- First(t, EID);
      Some(Delete(ValueOf(iccid)))
    else if t.tag == PROFILE_INFO_LIST then Some(ListProfileInfo(t))
    else if t.tag == C6 then Some(GetRat)
    else if t.tag == C7 then
      var i :- DecodeImmediate(t);
      Some(ConfigureImmediateEnable(Some(i)))
    else if t.tag == C8 then
      var iccid :- First(t, EID);
      Some(SetFallback(ValueOf(iccid)))
    else if t.tag == C9 then Some(UnsetFallback)
    else if t.tag == SET_DEFAULT_DP then
      if t.Cons? && |t.kids| == 1 then Some(SetDefaultDp(ValueOf(t.kids[0]))) else None
    else None
  }

  predicate PsmoOk(p: Psmo) {
    p.ListProfileInfo? ==> RawOk(p.request, PROFILE_INFO_LIST)
  }

  /** What a decoder makes of an encoded operation: an absent immediate-enable payload comes back empty. */
  function NormalPsmo(p: Psmo): (r: Psmo) {
    if p == ConfigureImmediateEnable(None) then ConfigureImmediateEnable(Some(ImmediateEnable(false, [], None))) else p
  }

  lemma {:induction false} EnableRoundTrip(iccid: Text, rollback: bool)
    ensures DecodePsmo(PsmoTlv(Enable(iccid, rollback))) == Some(Enable(iccid, rollback))
  {
    var fields, tags := [Some(Prim(EID, iccid)), FlagField(NULL, rollback)], [EID, NULL];
    PresentFirst(fields, tags, 0);
    PresentFirst(fields, tags, 1);
    FieldRoundTrips(NULL);
  }

  lemma {:induction false} ImmediateRoundTrip(i: ImmediateEnable)
    ensures DecodeImmediate(Cons(C7, Present(ImmediateFields(i)))) == Some(i)
  {
    var tags := [P0, P1, P2];
    PresentFirst(ImmediateFields(i), tags, 0);
    PresentFirst(ImmediateFields(i), tags, 1);
    PresentFirst(ImmediateFields(i), tags, 2);
    FieldRoundTrips(P0);
    FieldRoundTrips(P2);
  }

  lemma {:induction false} PsmoRoundTrip(p: Psmo)
    requires PsmoOk(p)
    ensures DecodePsmo(PsmoTlv(p)) == Some(NormalPsmo(p))
  {
    match p
    case Enable(iccid, rollback) => EnableRoundTrip(iccid, rollback);
    case ConfigureImmediateEnable(Some(i)) => ImmediateRoundTrip(i);
    case _ =>
  }

  // ---- the package ----

  datatype Package = Psmos(psmos: seq<Psmo>) | Ecos(ecos: seq<Eco>)

  function PackageTlv(p: Package): (r: Tlv) {
    match p
    case Psmos(ps) => Cons(C0, EncodeAll(ps, PsmoTlv))
    case Ecos(es) => Cons(C1, EncodeAll(es, EcoTlv))
  }

  function DecodePackage(t: Tlv): (r: Option<Package>) {
    var kids := if t.Cons? then t.kids else [];
    if t.tag == C0 then
      var ps :- DecodeAll(kids, DecodePsmo);
      Some(Psmos(ps))
    else if t.tag == C1 then
      var es :- DecodeAll(kids, DecodeEco);
      Some(Ecos(es))
    else None
  }

  predicate PackageOk(p: Package) {
    match p
    case Psmos(ps) => forall i :: 0 <= i < |ps| ==> PsmoOk(ps[i])
    case Ecos(es) => forall i :: 0 <= i < |es| ==> EcoOk(es[i])
  }

  function NormalPackage(p: Package): (r: Package) {
    match p
    case Psmos(ps) => Psmos(seq(|ps|, i requires 0 <= i < |ps| => NormalPsmo(ps[i])))
    case Ecos(es) => p
  }

  /** EuiccPackage.MarshalBERTLV. */
  method MarshalPackage(p: Package) returns (r: Tlv)
    ensures r == PackageTlv(p)
  {
    match p
    case Psmos(ps) =>
      var children := MarshalAll(ps, PsmoTlv);
      r := Cons(C0, children);
    case Ecos(es) =>
      var children := MarshalAll(es, EcoTlv);
      r := Cons(C1, children);
  }

  /** EuiccPackage.UnmarshalBERTLV: stops at the first child that does not decode. */
  method UnmarshalPackage(t: Tlv) returns (r: Option<Package>)
    ensures r == DecodePackage(t)
  {
    var kids := if t.Cons? then t.kids else [];
    if t.tag == C0 {
      var psmos := UnmarshalAll(kids, DecodePsmo);
      r := if psmos.Some? then Some(Psmos(psmos.value)) else None;
    } else if t.tag == C1 {
      var ecos := UnmarshalAll(kids, DecodeEco);
      r := if ecos.Some? then Some(Ecos(ecos.value)) else None;
    } else {
      r := None;
    }
  }

  /** Decoding an encoded package gives it back, for every list of operations of either kind. */
  lemma {:induction false} PackageRoundTrip(p: Package)
    requires PackageOk(p)
    ensures DecodePackage(PackageTlv(p)) == Some(NormalPackage(p))
  {
    hide PsmoTlv, EcoTlv, DecodePsmo, DecodeEco, NormalPsmo, PsmoOk, EcoOk;
    var kids := PackageTlv(p).kids;
    match p
    case Psmos(ps) =>
      forall i | 0 <= i < |ps| ensures DecodePsmo(kids[i]) == Some(NormalPackage(p).psmos[i]) { PsmoRoundTrip(ps[i]); }
      DecodeAllOf(kids, DecodePsmo, NormalPackage(p).psmos);
    case Ecos(es) =>
      forall i | 0 <= i < |es| ensures DecodeEco(kids[i]) == Some(es[i]) { EcoRoundTrip(es[i]); }
      DecodeAllOf(kids, DecodeEco, es);
  }

  // ---- the signed request ----

  datatype Signed = Signed(eimID: Text, eid: Text, counter: Int64, transactionID: Option<Text>, pkg: Package)

  datatype Request = Request(signed: Signed, signature: Text)

  /** The package comes last; its tag is [0] or [1], so it has a field for each. */
  function SignedFields(s: Signed): (r: seq<Option<Tlv>>) {
    [ Some(Prim(P0, s.eimID)),
      Some(Prim(EID, s.eid)),
      Some(IntegerTlv(P1, s.counter)),
      TextField(P2, s.transactionID),
      if s.pkg.Psmos? then Some(PackageTlv(s.pkg)) else None,
      if s.pkg.Ecos? then Some(PackageTlv(s.pkg)) else None ]
  }

  const SIGNED_TAGS: seq<Tag> := [P0, EID, P1, P2, C0, C1]

  function SignedTlv(s: Signed): (r: Tlv) { Cons(SEQUENCE, Present(SignedFields(s))) }

  function DecodeSigned(t: Tlv): (r: Option<Signed>) {
    if t.tag != SEQUENCE then None
    else
      var eimID :- First(t, P0);
      var eid :- First(t, EID);
      var counter :- RequiredInt(First(t, P1));
      var pkgTlv :- if First(t, C0).Some? then First(t, C0) else First(t, C1);
      var pkg :- DecodePackage(pkgTlv);
      Some(Signed(ValueOf(eimID), ValueOf(eid), counter, TextOf(First(t, P2)), pkg))
  }

  function RequestTlv(r: Request): (t: Tlv) {
    Cons(EUICC_PACKAGE, [SignedTlv(r.signed), Prim(SIGNATURE, r.signature)])
  }

  function DecodeRequest(t: Tlv): (r: Option<Request>) {
    if t.tag != EUICC_PACKAGE || !t.Cons? || |t.kids| < 2 then None
    else
      var signed :- DecodeSigned(t.kids[0]);
      var signature :- First(t, SIGNATURE);
      Some(Request(signed, ValueOf(signature)))
  }

  function NormalRequest(r: Request): (n: Request) { r.(signed := r.signed.(pkg := NormalPackage(r.signed.pkg))) }

  lemma {:induction false} SignedRoundTrip(s: Signed)
    requires PackageOk(s.pkg)
    ensures DecodeSigned(SignedTlv(s)) == Some(s.(pkg := NormalPackage(s.pkg)))
  {
    SignedLookups(s);
    PackageRoundTrip(s.pkg);
    IntegerRoundTrip(P1, s.counter);
    FieldRoundTrips(P2);
    hide First, Present, SignedFields, DecodePackage, PackageTlv, NormalPackage, TextField, TextOf, IntegerTlv,
         IntegerOf;
  }

  lemma {:induction false} SignedLookups(s: Signed)
    ensures var t := SignedTlv(s);
            && First(t, P0) == Some(Prim(P0, s.eimID)) && First(t, EID) == Some(Prim(EID, s.eid))
            && First(t, P1) == Some(IntegerTlv(P1, s.counter)) && First(t, P2) == TextField(P2, s.transactionID)
            && First(t, C0) == (if s.pkg.Psmos? then Some(PackageTlv(s.pkg)) else None)
            && First(t, C1) == (if s.pkg.Ecos? then Some(PackageTlv(s.pkg)) else None)
  {
    var f, g := SignedFields(s), SIGNED_TAGS;
    FieldRoundTrips(P2);
    assert IntegerTlv(P1, s.counter).tag == P1 && PackageTlv(s.pkg).tag == if s.pkg.Psmos? then C0 else C1;
    hide PackageTlv, IntegerTlv, TextField, Present, FirstIn;
    assert Tagged(f, g) && Distinct(g);
    PresentFirsts(f, g);
    assert g[0] == P0 && g[1] == EID && g[2] == P1 && g[3] == P2 && g[4] == C0 && g[5] == C1;
  }

  /**
   Decoding an encoded request gives the same request back, for every list of PSMOs or
   ECOs, although the two lists reuse the same context tags.
   */
  lemma {:induction false} RequestRoundTrip(r: Request)
    requires PackageOk(r.signed.pkg)
    ensures DecodeRequest(RequestTlv(r)) == Some(NormalRequest(r))
  {
    SignedRoundTrip(r.signed);
    hide DecodeSigned, NormalPackage;
    assert SignedTlv(r.signed).tag == SEQUENCE;
    hide SignedTlv;
    var kids := RequestTlv(r).kids;
    assert kids[1..] == [Prim(SIGNATURE, r.signature)];
  }

  // ---- on the wire ----

  lemma {:induction false} ConfigTagsOk()
    ensures forall t :: t in [P0, P1, P2, P3, P4, P7, P8, P9] ==> TagOk(t) && !IsConstructed(t)
  {
  }

  lemma {:induction false} ConfigValid(c: EimConfig)
    requires ConfigOk(c)
    ensures AllValid(Present(ConfigFields(c)))
  {
    if c.publicKey.Some? { X509Valid(C5, c.publicKey.value); }
    if c.trustedTls.Some? { X509Valid(C6, c.trustedTls.value); }
    assert FieldOk(X509Field(C5, c.publicKey)) && FieldOk(X509Field(C6, c.trustedTls)) && FieldOk(c.proprietary);
    ConfigFieldsOk(c);
    PresentValid(ConfigFields(c));
  }

  lemma {:induction false} ConfigFieldsOk(c: EimConfig)
    requires FieldOk(X509Field(C5, c.publicKey)) && FieldOk(X509Field(C6, c.trustedTls)) && FieldOk(c.proprietary)
    ensures forall i :: 0 <= i < |ConfigFields(c)| ==> FieldOk(ConfigFields(c)[i])
  {
    ConfigTagsOk();
    PrimFieldsOk(P0);
    PrimFieldsOk(P1);
    PrimFieldsOk(P2);
    PrimFieldsOk(P3);
    PrimFieldsOk(P4);
    PrimFieldsOk(P7);
    PrimFieldsOk(P8);
    PrimFieldsOk(P9);
    hide TextField, IntField, FlagField, X509Field, TagOk, BitString.Pack, Valid;
    var f := ConfigFields(c);
    assert FieldOk(f[7]);
  }

  lemma {:induction false} X509Valid(tag: Tag, x: X509Choice)
    requires RawOk(x.data, SEQUENCE) && TagOk(tag) && IsConstructed(tag)
    ensures Valid(X509Field(tag, Some(x)).value)
  {
    var arm := Cons(if x.PublicKeyInfo? then C0 else C1, [x.data]);
    OneValid(x.data);
    assert Valid(arm);
    OneValid(arm);
  }

  lemma {:induction false} EcoValid(e: Eco)
    requires EcoOk(e)
    ensures Valid(EcoTlv(e))
  {
    hide ConfigFields, Present, ConfigOk;
    match e
    case AddEim(config) => ConfigValid(config);
    case UpdateEim(config) => ConfigValid(config);
    case DeleteEim(eimID) => OneValid(Prim(P0, eimID));
    case ListEim =>
  }

  lemma {:induction false} PsmoValid(p: Psmo)
    requires PsmoOk(p)
    ensures Valid(PsmoTlv(p))
  {
    match p
    case Enable(iccid, rollback) => PresentValid([Some(Prim(EID, iccid)), FlagField(NULL, rollback)]);
    case Disable(iccid) => OneValid(Prim(EID, iccid));
    case Delete(iccid) => OneValid(Prim(EID, iccid));
    case SetFallback(iccid) => OneValid(Prim(EID, iccid));
    case ConfigureImmediateEnable(Some(i)) => PresentValid(ImmediateFields(i));
    case SetDefaultDp(address) => OneValid(Prim(UTF8, address));
    case _ =>
  }

  lemma {:induction false} PackageValid(p: Package)
    requires PackageOk(p)
    ensures Valid(PackageTlv(p))
  {
    hide PsmoTlv, EcoTlv, PsmoOk, EcoOk;
    AllValidIff(PackageTlv(p).kids);
    match p
    case Psmos(ps) => forall i | 0 <= i < |ps| ensures Valid(PsmoTlv(ps[i])) { PsmoValid(ps[i]); }
    case Ecos(es) => forall i | 0 <= i < |es| ensures Valid(EcoTlv(es[i])) { EcoValid(es[i]); }
  }

  lemma {:induction false} RequestValid(r: Request)
    requires PackageOk(r.signed.pkg)
    ensures Valid(RequestTlv(r))
  {
    SignedValid(r.signed);
    assert RequestTlv(r).kids[1..] == [Prim(SIGNATURE, r.signature)];
    OneValid(Prim(SIGNATURE, r.signature));
    hide SignedTlv;
  }

  lemma {:induction false} SignedValid(s: Signed)
    requires PackageOk(s.pkg)
    ensures Valid(SignedTlv(s))
  {
    PackageValid(s.pkg);
    PrimFieldsOk(P0);
    PrimFieldsOk(P1);
    PrimFieldsOk(P2);
    PrimFieldsOk(EID);
    var f := SignedFields(s);
    assert FieldOk(f[4]) && FieldOk(f[5]);
    assert FieldOk(f[0]) && FieldOk(f[1]) && FieldOk(f[2]) && FieldOk(f[3]) by { hide Valid, TextField; }
    PresentValid(f);
  }

  /** protocolasn1.Encode and Decode of a request. */
  function EncodeRequest(r: Request): (o: seq<Octet>) { Write(RequestTlv(r)) }

  function DecodeRequestBytes(data: seq<Octet>): (r: Option<Request>) {
    var t :- ParseOne(data);
    DecodeRequest(t)
  }

  /** The same round trip through the octets. */
  lemma {:induction false} RequestWireRoundTrip(r: Request)
    requires PackageOk(r.signed.pkg) && Fits(RequestTlv(r))
    ensures DecodeRequestBytes(EncodeRequest(r)) == Some(NormalRequest(r))
  {
    hide ParseOne, RequestTlv, DecodeRequest, NormalRequest, Write;
    RequestValid(r);
    ParseOneWrite(RequestTlv(r));
    RequestRoundTrip(r);
  }
}
