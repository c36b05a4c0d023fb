/**
 The emulated device (mockipa/device_view.go, mockipa/runner.go, mockipa/signing.go) as
 a value: its inventory and association tokens, the results it signs, and its queue of
 pending notifications.
 */
module Device {
  import opened Octets
  import opened Tlv
  import opened Tags
  import opened Fields
  import opened EuiccPackage
  import opened ResultItems
  import opened Outcome
  import opened Notifications
  import BitString
  import R = PackageResult

  datatype Record = Record(iccid: Text, smdp: Text, enabled: bool, fallback: bool)

  type Inventory = map<Text, Record>

  type Tokens = map<Text, Int64>

  datatype Note = Note(number: int, tlv: Tlv)

  datatype Device = Device(profiles: Inventory, tokens: Tokens, indirect: bool, nextNumber: int, pending: seq<Note>)

  // ---- the inventory ----

  function RecordOr(m: Inventory, key: Text): (r: Record) { if key in m then m[key] else Record([], [], false, false) }

  /** applyPSMO: an empty ICCID is ignored. */
  function PsmoApplied(m: Inventory, iccid: Text, on: bool): (r: Inventory) {
    if iccid == [] then m else m[Hex(iccid) := RecordOr(m, Hex(iccid)).(iccid := iccid, enabled := on)]
  }

  function Removed(m: Inventory, iccid: Text): (r: Inventory) {
    if iccid == [] then m else m - {Hex(iccid)}
  }

  function Fallback(m: Inventory, target: Option<Text>): (r: Inventory) {
    map key | key in m :: m[key].(fallback := target == Some(key))
  }

  /** setProfileFallback: creates the profile when it is absent. */
  function FallbackGiven(m: Inventory, iccid: Text): (r: Inventory) {
    if iccid == [] then m
    else
      var n := Fallback(m, Some(Hex(iccid)));
      if Hex(iccid) in m then n else n[Hex(iccid) := Record(iccid, [], false, true)]
  }

  // ---- association tokens ----

  function TokenOf(t: Tokens, eimID: Text): (r: Option<Int64>) {
    if eimID != [] && eimID in t then Some(t[eimID]) else None
  }

  function TokenSet(t: Tokens, eimID: Text, token: Int64): (r: Tokens) { if eimID == [] then t else t[eimID := token] }

  function TokenCleared(t: Tokens, eimID: Text): (r: Tokens) { if eimID == [] then t else t - {eimID} }

  /** The token an addEim result reports and the device keeps: the configured one, or 1. */
  function AddToken(c: EimConfig): (r: Int64) { if c.token.Some? then c.token.value else 1 }

  // ---- results ----

  function ProfileOf(r: Record): (p: ProfileInfo) {
    ProfileInfo(Some(r.iccid), Some(if r.enabled then PROFILE_ENABLED else PROFILE_DISABLED), r.fallback)
  }

  /** The inventory in the order of a walk through the map. */
  ghost predicate Enumerates(order: seq<Text>, m: Inventory) {
    (forall key :: key in m <==> key in order) && (forall i, j :: 0 <= i < j < |order| ==> order[i] != order[j])
  }

  function Listing(m: Inventory, order: seq<Text>): (r: seq<ProfileInfo>)
    requires forall key :: key in order ==> key in m
  {
    seq(|order|, i requires 0 <= i < |order| => ProfileOf(m[order[i]]))
  }

  function PsmoResult(p: Psmo, m: Inventory, order: seq<Text>): (r: Tlv)
    requires forall key :: key in order ==> key in m
  {
    match p
    case Enable(_, _) => IntegerTlv(P3, 0)
    case Disable(_) => IntegerTlv(P4, 0)
    case Delete(_) => IntegerTlv([0x85], 0)
    case ListProfileInfo(_) => ProfileListTlv(Profiles(Listing(m, order)))
    case GetRat => Cons(C6, [])
    case ConfigureImmediateEnable(_) => IntegerTlv(P7, 0)
    case SetFallback(_) => IntegerTlv([0x8d], 0)
    case UnsetFallback => IntegerTlv([0x8e], 0)
    case SetDefaultDp(_) => Cons(SET_DEFAULT_DP, [IntegerTlv(INTEGER, 0)])
  }

  /** The device always reports the last eIM deleted. */
  function EcoResult(e: Eco, eimID: Text): (r: Tlv) {
    match e
    case AddEim(c) => Cons(C8, [AddEimTlv(AddedWithToken(AddToken(c)))])
    case DeleteEim(_) => IntegerTlv(P9, 2)
    case UpdateEim(_) => IntegerTlv([0x8a], 0)
    case ListEim => Cons(C11, [ListEimTlv(EimIds([EimIdInfo(eimID, None)]))])
  }

  /** successfulResultData: packages of one operation only. */
  function ResultData(pkg: Package, eimID: Text, m: Inventory, order: seq<Text>): (r: Option<Tlv>)
    requires forall key :: key in order ==> key in m
  {
    match Single(pkg)
    case NoOp => None
    case PsmoOp(p) => Some(PsmoResult(p, m, order))
    case EcoOp(e) => Some(EcoResult(e, eimID))
  }

  /** SignedEUICCPackageResult, with sequence number 0. */
  function SignedResult(d: Device, request: Signed, order: seq<Text>, sign: seq<Octet> -> Text): (r: Option<R.Result>)
    requires forall key :: key in order ==> key in d.profiles
  {
    var t :- ResultData(request.pkg, request.eimID, d.profiles, order);
    var data := R.ResultData(request.eimID, request.counter, request.transactionID, 0, [t]);
    Some(R.ResultSigned(data, sign(SignatureInput(Write(R.DataTlv(data)), TokenOf(d.tokens, request.eimID)))))
  }

  /** applyOperationState. */
  function OperationApplied(d: Device, pkg: Package): (r: Device) {
    match Single(pkg)
    case NoOp => d
    case PsmoOp(Enable(iccid, _)) => d.(profiles := PsmoApplied(d.profiles, iccid, true))
    case PsmoOp(Disable(iccid)) => d.(profiles := PsmoApplied(d.profiles, iccid, false))
    case PsmoOp(Delete(iccid)) => d.(profiles := Removed(d.profiles, iccid))
    case PsmoOp(SetFallback(iccid)) => d.(profiles := FallbackGiven(d.profiles, iccid))
    case PsmoOp(UnsetFallback) => d.(profiles := Fallback(d.profiles, None))
    case PsmoOp(_) => d
    case EcoOp(AddEim(c)) => d.(indirect := c.indirectDownload, tokens := TokenSet(d.tokens, c.eimID, AddToken(c)))
    case EcoOp(UpdateEim(c)) =>
      var e := d.(indirect := c.indirectDownload);
      if c.token.Some? then e.(tokens := TokenSet(d.tokens, c.eimID, c.token.value)) else e
    case EcoOp(DeleteEim(eimID)) => d.(tokens := TokenCleared(d.tokens, eimID))
    case EcoOp(ListEim) => d
  }

  // ---- notifications ----

  /** notificationKindForOperation. */
  function NoteKind(pkg: Package): (r: Option<Text>) {
    match Single(pkg)
    case PsmoOp(Enable(_, _)) => Some(ENABLE)
    case PsmoOp(Disable(_)) => Some(DISABLE)
    case PsmoOp(Delete(_)) => Some(DELETE)
    case _ => None
  }

  // "notification.openiotrsp.local"
  const NOTE_ADDRESS: Text := [
    110, 111, 116, 105, 102, 105, 99, 97, 116, 105, 111, 110, 46, 111, 112, 101, 110, 105, 111, 116, 114, 115, 112, 46,
    108, 111, 99, 97, 108
  ]

  function EventBits(kind: Text): (r: seq<bool>) { [kind == INSTALL, kind == ENABLE, kind == DISABLE, kind == DELETE] }

  function MetadataTlv(number: Int64, kind: Text): (r: Tlv) {
    Cons(NOTIFICATION_META,
      [IntegerTlv(P0, number), Prim(P1, BitString.Pack(EventBits(kind))), Prim(UTF8, NOTE_ADDRESS)])
  }

  /** SignedNotification. */
  function NoteTlv(eid: Text, number: Int64, kind: Text, sign: seq<Octet> -> Text): (r: Tlv) {
    var body := [Prim(EID, eid), MetadataTlv(number, kind)];
    Cons(C1, body + [Prim(SIGNATURE, sign(Write(Cons(C1, body))))])
  }

  /** nextNotificationSequence: the number to use. */
  function NextNumber(d: Device): (r: int)
    ensures r >= 1
  {
    if d.nextNumber <= 0 then 1 else d.nextNumber
  }

  /** queueNotification. */
  function NoteQueued(d: Device, eid: Text, kind: Text, sign: seq<Octet> -> Text): (r: Device)
    requires NextNumber(d) < INT64_LIMIT
  {
    var n := NextNumber(d);
    d.(nextNumber := n + 1, pending := d.pending + [Note(n, NoteTlv(eid, n, kind, sign))])
  }

  /** The notifications that no number in the list acknowledges, in order. */
  function Unacknowledged(pending: seq<Note>, numbers: seq<int>): (r: seq<Note>) {
    if pending == [] then []
    else
      var last := pending[|pending| - 1];
      Unacknowledged(pending[..|pending| - 1], numbers) + if last.number in numbers then [] else [last]
  }

  function NoteTlvs(pending: seq<Note>): (r: seq<Tlv>)
    ensures |r| == |pending| && forall i :: 0 <= i < |r| ==> r[i] == pending[i].tlv
  {
    seq(|pending|, i requires 0 <= i < |pending| => pending[i].tlv)
  }

  /** UploadEUICCPackageResultWithNotifications. */
  function UploadTlv(result: R.Result, notes: seq<Note>): (t: Tlv) {
    if notes == [] then R.ResultTlv(result) else Cons(SEQUENCE, [R.ResultTlv(result), Cons(C0, NoteTlvs(notes))])
  }

  /** acknowledgeNotifications keeps exactly the unacknowledged notifications. */
  lemma {:induction false} UnacknowledgedIs(pending: seq<Note>, numbers: seq<int>)
    ensures forall n :: n in Unacknowledged(pending, numbers) <==> n in pending && n.number !in numbers
    ensures |Unacknowledged(pending, numbers)| <= |pending|
    ensures numbers == [] ==> Unacknowledged(pending, numbers) == pending
  {
    if pending != [] {
      var n := |pending| - 1;
      UnacknowledgedIs(pending[..n], numbers);
      assert pending == pending[..n] + [pending[n]];
    }
  }

  /** Strictly increasing, all below the next number. */
  predicate Numbered(pending: seq<Note>, next: int) {
    (forall i, j :: 0 <= i < j < |pending| ==> pending[i].number < pending[j].number)
    && forall i :: 0 <= i < |pending| ==> 1 <= pending[i].number < next
  }

  lemma {:induction false} NumberedInit(pending: seq<Note>, next: int)
    requires Numbered(pending, next) && pending != []
    ensures var last := pending[|pending| - 1];
            && Numbered(pending[..|pending| - 1], next) && 1 <= last.number < next
            && forall n :: n in pending[..|pending| - 1] ==> n.number < last.number
  {
  }

  lemma {:induction false} NumberedAppend(pending: seq<Note>, n: Note, next: int)
    requires Numbered(pending, next) && 1 <= n.number < next && forall p :: p in pending ==> p.number < n.number
    ensures Numbered(pending + [n], next)
  {
  }

  lemma {:induction false} UnacknowledgedNumbered(pending: seq<Note>, numbers: seq<int>, next: int)
    requires Numbered(pending, next)
    ensures Numbered(Unacknowledged(pending, numbers), next)
  {
    hide Numbered;
    if pending == [] {
      NumberedNone(next);
    } else {
      NumberedInit(pending, next);
      var n := |pending| - 1;
      var init := Unacknowledged(pending[..n], numbers);
      UnacknowledgedNumbered(pending[..n], numbers, next);
      UnacknowledgedIs(pending[..n], numbers);
      UnacknowledgedLast(pending, numbers);
      hide Unacknowledged;
      if pending[n].number !in numbers { NumberedAppend(init, pending[n], next); }
    }
  }

  lemma {:induction false} NumberedNone(next: int)
    ensures Numbered([], next)
  {
  }

  lemma {:induction false} UnacknowledgedLast(pending: seq<Note>, numbers: seq<int>)
    requires pending != []
    ensures var n := |pending| - 1;
            var init := Unacknowledged(pending[..n], numbers);
            Unacknowledged(pending, numbers) == if pending[n].number in numbers then init else init + [pending[n]]
  {
  }

  // ---- what the eIM reads in a notification ----

  lemma {:induction false} MetadataDecodes(number: Int64, kind: Text)
    ensures DecodeMetadata(MetadataTlv(number, kind)) == Some(Metadata(number, Some(EventBits(kind)), NOTE_ADDRESS))
  {
    var t := MetadataTlv(number, kind);
    IntegerRoundTrip(P0, number);
    BitString.UnpackPack(EventBits(kind));
    hide IntegerOf, BitString.Pack, BitString.Unpack;
    assert t.kids[1..] == [Prim(P1, BitString.Pack(EventBits(kind))), Prim(UTF8, NOTE_ADDRESS)];
    assert t.kids[1..][1..] == [Prim(UTF8, NOTE_ADDRESS)];
    assert First(t, P0) == Some(IntegerTlv(P0, number));
    assert First(t, P1) == Some(t.kids[1]);
    assert First(t, UTF8) == Some(t.kids[2]);
  }

  lemma {:induction false} NoteFindsMetadata(eid: Text, number: Int64, kind: Text, sign: seq<Octet> -> Text)
    ensures FindMetadata(NoteTlv(eid, number, kind, sign)) == Some(MetadataTlv(number, kind))
  {
    var t := NoteTlv(eid, number, kind, sign);
    hide MetadataTlv, Write;
    assert MetadataTlv(number, kind).tag == NOTIFICATION_META by { MetadataTag(number, kind); }
    assert t.kids[0] == Prim(EID, eid) && t.kids[1..][0] == MetadataTlv(number, kind);
    assert FindMetadata(t.kids[0]) == None;
    assert FindMetadata(t.kids[1..][0]) == Some(MetadataTlv(number, kind));
    assert FindMetadataIn(t.kids[1..]) == Some(MetadataTlv(number, kind));
    assert FindMetadataIn(t.kids) == FindMetadataIn(t.kids[1..]);
  }

  lemma {:induction false} MetadataTag(number: Int64, kind: Text)
    ensures MetadataTlv(number, kind).tag == NOTIFICATION_META
  {
  }

  /** The eIM decodes a notification of the device and reads the number it was issued with. */
  lemma {:induction false} NoteIsRead(eid: Text, number: Int64, kind: Text, sign: seq<Octet> -> Text, key: Text)
    ensures var t := NoteTlv(eid, number, kind, sign);
            && DecodePending(t).Some?
            && var note := ToNotification(key, DecodePending(t).value);
               note.Some? && note.value.sequenceNumber == number
  {
    NoteFindsMetadata(eid, number, kind, sign);
    MetadataDecodes(number, kind);
    assert NoteTlv(eid, number, kind, sign).tag == C1;
    hide NoteTlv, MetadataTlv, FindMetadata, DecodeMetadata, Write, EventKind;
  }
}
