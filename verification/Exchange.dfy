/**
 One exchange between the eIM and a device: the device polls, signs a result, uploads it
 with its pending notifications, applies the operation to itself and retires what was
 acknowledged.
 */
module Exchange {
  import opened Octets
  import opened Tlv
  import opened Tags
  import opened EuiccPackage
  import opened Outcome
  import opened StoreState
  import opened Queue
  import opened Effects
  import opened Notifications
  import opened Handler
  import opened Device
  import opened Answers
  import R = PackageResult

  /** The device's identity, its signing key and the eIM's check of it. */
  datatype Env = Env(tenantID: Text, eid: Text, eidBytes: Text, sign: seq<Octet> -> Text, verify: Verifier)

  function KeyIn(env: Env): (k: Key) { KeyOf(env.tenantID, env.eid) }

  ghost predicate KeysMatch(env: Env) { forall m :: env.verify(m, env.sign(m)) }

  /** handleGetEimPackage: the package handed out is decoded from the queue and encoded again for the device. */
  ghost function Polled(s: State, k: Key): (r: Option<Request>)
    requires Inv(s)
  {
    match Selected(s, k)
    case None => None
    case Some(op) =>
      if op.kind != EuiccPackageKind then None
      else
        match DecodeRequestBytes(op.payload)
        case None => None
        case Some(request) => DecodeRequest(RequestTlv(request))
  }

  /** What the device has ready to upload. */
  datatype Sent = Sent(pkg: Package, result: R.Result, d: Device, notes: seq<Note>)

  /** handleEUICCPackage up to the upload. */
  function Prepared(env: Env, d: Device, request: Request, order: seq<Text>): (r: Option<Sent>)
    requires (forall key :: key in order ==> key in d.profiles) && NextNumber(d) < INT64_LIMIT
  {
    var result :- SignedResult(d, request.signed, order, env.sign);
    var kind := NoteKind(request.signed.pkg);
    if kind.None? then Some(Sent(request.signed.pkg, result, d, []))
    else
      var e := NoteQueued(d, env.eidBytes, kind.value, env.sign);
      Some(Sent(request.signed.pkg, result, e, e.pending))
  }

  /** After the upload: an error leaves the device as it is; an answer without acknowledgements acknowledges nothing. */
  function Settled(sent: Sent, reply: Reply): (r: Device) {
    if reply.Faulted? then sent.d
    else
      var e := OperationApplied(sent.d, sent.pkg);
      if sent.notes == [] || !reply.Ack? then e else e.(pending := Unacknowledged(e.pending, reply.numbers))
  }

  /** The package polled and the upload prepared for it, if there is one. */
  ghost function Offer(env: Env, s: State, d: Device, order: seq<Text>): (r: Option<Sent>)
    requires Inv(s)
  {
    if !Enumerates(order, d.profiles) || NextNumber(d) >= INT64_LIMIT then None
    else
      match Polled(s, KeyIn(env))
      case None => None
      case Some(request) => Prepared(env, d, request, order)
  }

  /** The eIM's side of an upload. */
  ghost function Uploaded(env: Env, s: State, sent: Sent): (r: (State, Reply))
    requires Inv(s)
  {
    Provided(s, env.tenantID, env.eid, UploadTlv(sent.result, sent.notes), env.verify)
  }

  // ---- acknowledged means stored ----

  /** What an upload is answered, once its operation is decided. */
  lemma {:induction false} CarriedReply(s: State, tenantID: Text, eid: Text, u: Upload, op: Operation, v: Verdict)
    ensures var k := KeyOf(tenantID, eid);
            var (t, ok) := ResultRecorded(s, tenantID, ResultOf(eid, op, v, u));
            var (x, reply) := Carried(s, tenantID, eid, u, op, v);
            var e := EffectOf(k in t.devices, t.records, k, op, v).1;
            var (notes, noted) := StoreList(k in t.devices, t.notifications, k, u.notifications);
            if ok && e.Applied?
            then x.notifications == notes && x.records == EffectOf(k in t.devices, t.records, k, op, v).0
                 && (reply.Ack? <==> noted.Numbers?)
                 && (noted.Numbers? ==> reply == Ack(Merged(Merged([], ResultNumbers(u.result)), noted.numbers)))
            else x.notifications == t.notifications && !reply.Ack?
  {
    hide ResultRecorded, EffectOf, StoreList, Merged, ResultOf, KeyOf, ResultNumbers;
  }

  lemma {:induction false} RecordedNotes(s: State, tenantID: Text, r: Recorded)
    ensures ResultRecorded(s, tenantID, r).0.notifications == s.notifications
    ensures ResultRecorded(s, tenantID, r).0.devices == s.devices
            && ResultRecorded(s, tenantID, r).0.records == s.records
  {
    hide Addressed, FinishAll;
  }

  /** Under number n the store holds the last notification of the uploaded list with that number. */
  ghost predicate ListHolds(k: Key, list: Option<Tlv>, m: Notes, n: int) {
    list.Some? && DecodePendingList(list.value).Some? && HoldsLast(k, DecodePendingList(list.value).value, m, n)
  }

  /** What the numbers answered mean: stored, or the number of the result itself; other slots stay. */
  ghost predicate AckMeans(k: Key, u: Upload, before: Notes, after: Notes, numbers: seq<int>) {
    && Unique(numbers)
    && (forall n :: n in numbers ==> n in ResultNumbers(u.result) || ListHolds(k, u.notifications, after, n))
    && (forall s :: s in before && !(s.device == k && s.name in numbers) ==> s in after && after[s] == before[s])
  }

  lemma {:induction false} CarriedAcks(s: State, tenantID: Text, eid: Text, u: Upload, op: Operation, v: Verdict)
    ensures var (x, reply) := Carried(s, tenantID, eid, u, op, v);
            && s.notifications.Keys <= x.notifications.Keys
            && (reply.Ack? ==> AckMeans(KeyOf(tenantID, eid), u, s.notifications, x.notifications, reply.numbers))
  {
    hide *;
    var k := KeyOf(tenantID, eid);
    var t := ResultRecorded(s, tenantID, ResultOf(eid, op, v, u)).0;
    RecordedNotes(s, tenantID, ResultOf(eid, op, v, u));
    CarriedReply(s, tenantID, eid, u, op, v);
    ListStored(k in t.devices, t.notifications, k, u.notifications);
    AckMembers(t, k, u);
    var noted := StoreList(k in t.devices, t.notifications, k, u.notifications).1;
    var (x, reply) := Carried(s, tenantID, eid, u, op, v);
    if reply.Ack? { AckIs(k, u, t.notifications, x.notifications, noted.numbers, reply.numbers); }
  }

  lemma {:induction false} AckIs(k: Key, u: Upload, before: Notes, after: Notes, noted: seq<int>, all: seq<int>)
    requires Unique(all) && forall n :: n in all <==> n in ResultNumbers(u.result) || n in noted
    requires forall n :: n in noted ==> ListHolds(k, u.notifications, after, n)
    requires before.Keys <= after.Keys && forall s :: s in before && !(s.device == k && s.name in noted) ==>
             after[s] == before[s]
    ensures AckMeans(k, u, before, after, all)
  {
    hide Unique, ResultNumbers, ListHolds;
    forall s | s in before && !(s.device == k && s.name in all) ensures s in after && after[s] == before[s] {
      var n: int := s.name;
      assert n in noted ==> n in all;
    }
  }

  lemma {:induction false} ListStored(known: bool, m: Notes, k: Key, list: Option<Tlv>)
    ensures var (n, r) := StoreList(known, m, k, list);
            && m.Keys <= n.Keys
            && (r.Numbers? ==>
                  && (forall x :: x in r.numbers ==> x > 0 && ListHolds(k, list, n, x))
                  && (forall s :: s in m && !(s.device == k && s.name in r.numbers) ==> n[s] == m[s]))
  {
    hide DecodePendingList, StoreEach, HoldsLast;
    if list.Some? && DecodePendingList(list.value).Some? {
      ReturnedAreStored(known, m, k, DecodePendingList(list.value).value);
    }
  }

  lemma {:induction false} AckMembers(t: State, k: Key, u: Upload)
    ensures var noted := StoreList(k in t.devices, t.notifications, k, u.notifications).1;
            noted.Numbers? ==>
              var all := Merged(Merged([], ResultNumbers(u.result)), noted.numbers);
              Unique(all) && forall n :: n in all <==> n in ResultNumbers(u.result) || n in noted.numbers
  {
    hide StoreList, ResultNumbers, Merged;
    var noted := StoreList(k in t.devices, t.notifications, k, u.notifications).1;
    if noted.Numbers? {
      MergedOk([], ResultNumbers(u.result));
      MergedOk(Merged([], ResultNumbers(u.result)), noted.numbers);
    }
  }

  /**
   For every upload: the acknowledgement list has no duplicates; under each of its numbers,
   but for the number of the result itself, the store holds the last uploaded notification
   with that number; and every other slot is as it was.
   */
  lemma {:induction false} AcknowledgedAreStored(s: State, tenantID: Text, eid: Text, t: Tlv, verify: Verifier)
    requires Inv(s)
    ensures var (x, reply) := Provided(s, tenantID, eid, t, verify);
            && s.notifications.Keys <= x.notifications.Keys
            && (reply.Ack? ==>
                  && DecodeUpload(t).Some?
                  && AckMeans(KeyOf(tenantID, eid), DecodeUpload(t).value, s.notifications, x.notifications,
                     reply.numbers))
  {
    hide DecodeUpload, Carried, MatchResult, Judge, Inv, AckMeans;
    if DecodeUpload(t).Some? {
      var u := DecodeUpload(t).value;
      var d := Decide(s, KeyOf(tenantID, eid), u, verify);
      if d.Accept? { CarriedAcks(s, tenantID, eid, u, d.op, d.v); }
    }
  }

  // ---- the upload as the eIM reads it ----

  lemma {:induction false} UploadDecodes(result: R.Result, notes: seq<Note>)
    ensures DecodeUpload(UploadTlv(result, notes)) ==
            Some(Upload(UploadTlv(result, notes), R.ResultTlv(result), result, if notes == [] then None
              else Some(Cons(C0, NoteTlvs(notes)))))
  {
    var t := UploadTlv(result, notes);
    SameTree(result);
    R.ResultRoundTrip(result, SEQUENCE);
    assert R.ResultTlv(result).tag == EUICC_PACKAGE;
    hide R.ResultTlv, R.Tagging, R.DecodeResult, NoteTlvs;
    if notes != [] {
      assert t.kids[1..] == [Cons(C0, NoteTlvs(notes))];
      assert First(t, EUICC_PACKAGE) == Some(R.ResultTlv(result));
      assert First(t, C0) == Some(Cons(C0, NoteTlvs(notes)));
    }
  }

  /** A pending notification is one the eIM can read, with the number the device knows it by. */
  ghost predicate NoteOk(key: Text, n: Note) {
    && n.number >= 1 && DecodePending(n.tlv).Some?
    && var note := ToNotification(key, DecodePending(n.tlv).value);
       note.Some? && note.value.sequenceNumber == n.number
  }

  lemma {:induction false} NotesStored(known: bool, m: Notes, k: Key, notes: seq<Note>)
    requires known && forall i :: 0 <= i < |notes| ==> NoteOk(k.eid, notes[i])
    ensures StoreList(known, m, k, Some(Cons(C0, NoteTlvs(notes)))).1.Numbers?
    ensures StoreList(known, m, k, Some(Cons(C0, NoteTlvs(notes)))).1.numbers ==
            seq(|notes|, i requires 0 <= i < |notes| => notes[i].number)
  {
    hide DecodePending, ToNotification;
    var ts := NoteTlvs(notes);
    var ps := seq(|notes|, i requires 0 <= i < |notes| => DecodePending(notes[i].tlv).Extract());
    forall i | 0 <= i < |ts| ensures DecodePending(ts[i]) == Some(ps[i]) { assert NoteOk(k.eid, notes[i]); }
    DecodeAllOf(ts, DecodePending, ps);
    forall i | 0 <= i < |ps| ensures Storable(k.eid, ps[i], notes[i].number) { assert NoteOk(k.eid, notes[i]); }
    EachStored(known, m, k, ps, notes);
  }

  predicate Storable(key: Text, p: PendingNote, number: int) {
    var note := ToNotification(key, p);
    number >= 1 && note.Some? && note.value.sequenceNumber == number
  }

  lemma {:induction false} EachStored(known: bool, m: Notes, k: Key, ps: seq<PendingNote>, notes: seq<Note>)
    requires known && |ps| == |notes| && forall i :: 0 <= i < |ps| ==> Storable(k.eid, ps[i], notes[i].number)
    ensures StoreEach(known, m, k, ps).1 == Numbers(seq(|notes|, i requires 0 <= i < |notes| => notes[i].number))
  {
    hide ToNotification;
    if ps == [] {
      StoreNone(known, m, k);
    } else {
      var n := |ps| - 1;
      EachStored(known, m, k, ps[..n], notes[..n]);
      assert Storable(k.eid, ps[n], notes[n].number);
      assert ps[..n + 1] == ps;
      StoreNext(known, m, k, ps, n);
      hide StoreEach;
      assert seq(|notes[..n]|, i requires 0 <= i < |notes[..n]| => notes[..n][i].number) + [notes[n].number] ==
             seq(|notes|, i requires 0 <= i < |notes| => notes[i].number);
    }
  }

  // ---- the upload of a device in agreement is accepted ----

  /** A package handed out is one of the first pending operations of the device's queue, unchanged. */
  lemma {:induction false} PolledIs(s: State, k: Key) returns (op: Operation)
    requires Inv(s) && SignedQueue(QueueOf(s, k)) && Polled(s, k).Some?
    ensures op in Fetched(s, k, POLL_WINDOW) && op in QueueOf(s, k) && op.kind == EuiccPackageKind && SignedOp(op)
    ensures DecodeRequestBytes(op.payload) == Polled(s, k) && Selected(s, k) == Some(op)
  {
    op := Selected(s, k).value;
    SelectedIn(s, k);
    FetchedMember(s, k, POLL_WINDOW);
    hide QueueOf, Inv, Selected, Fetched, DecodeRequestBytes, PackageOk, PackageFits, DistinctCounters,
         NormalRequest, DecodeRequest, RequestTlv;
    assert SignedOp(op);
    RequestRoundTrip(DecodeRequestBytes(op.payload).value);
  }

  lemma {:induction false} SelectedIn(s: State, k: Key)
    requires Inv(s)
    ensures Selected(s, k).Some? ==> Selected(s, k).value in Fetched(s, k, POLL_WINDOW)
  {
    hide Fetched, Inv;
  }

  lemma {:induction false} SelfCorrelates(op: Operation, request: Request)
    requires op.kind == EuiccPackageKind && DecodeRequestBytes(op.payload) == Some(request)
    ensures Correlated(op, request.signed.eimID, request.signed.counter, TextBytes(request.signed.transactionID))
  {
    hide DecodeRequestBytes;
  }

  lemma {:induction false} FetchedWider(s: State, k: Key, op: Operation)
    requires Inv(s) && op in Fetched(s, k, POLL_WINDOW)
    ensures op in Fetched(s, k, WINDOW)
  {
    hide Inv, QueueOf, PendingOf;
    var p := PendingOf(QueueOf(s, k));
    var i :| 0 <= i < |Fetched(s, k, POLL_WINDOW)| && Fetched(s, k, POLL_WINDOW)[i] == op;
    assert Fetched(s, k, WINDOW)[i] == p[i] == op;
  }

  /** The result of a polled package is matched to that package, however many operations the device has. */
  lemma {:induction false} ResultMatches(s: State, k: Key, op: Operation, request: Request, result: R.Result)
    requires Inv(s) && SignedQueue(QueueOf(s, k)) && op in Fetched(s, k, POLL_WINDOW)
    requires op.kind == EuiccPackageKind && SignedOp(op) && DecodeRequestBytes(op.payload) == Some(request)
    requires result.ResultSigned? && result.data.eimID == request.signed.eimID
             && result.data.counter == request.signed.counter
             && result.data.transactionID == request.signed.transactionID
    ensures MatchResult(s, k, result) == Found(op)
  {
    SelfCorrelates(op, request);
    assert request.signed.counter >= 1;
    hide QueueOf, Inv, SignedOp, Correlated, SignedQueue, Correlate, DecodeRequestBytes, Fetched;
    FetchedWider(s, k, op);
    CorrelateFetched(s, k, request.signed.eimID, request.signed.counter, TextBytes(request.signed.transactionID), op);
  }

  /** The tokens the two sides hold for every eIM ID are the same. */
  ghost predicate TokensAgree(eims: Eims, k: Key, t: Tokens) {
    forall id :: TokenFor(eims, k, id) == Some(TokenOf(t, id))
  }

  lemma {:induction false} ResultIsJudged(
    env: Env, eims: Eims, k: Key, d: Device, op: Operation, request: Request, order: seq<Text>
  )
    requires KeysMatch(env) && TokensAgree(eims, k, d.tokens) && DecodeRequestBytes(op.payload) == Some(request)
    requires (forall key :: key in order ==> key in d.profiles) && !Single(request.signed.pkg).NoOp?
    requires Scannable(SignedResult(d, request.signed, order, env.sign).value)
    ensures Judge(eims, k, op, Write(R.ResultTlv(SignedResult(d, request.signed, order, env.sign).value)),
            env.verify) ==
            Expected(Single(request.signed.pkg), d.profiles, order)
  {
    hide SignedResult, Scannable, PackageVerdict, Expected, Write, R.ResultTlv, DecodeRequestBytes, TokenFor;
    SignedIsVerified(d, request.signed, order, env.sign, env.verify);
  }

  /** The effect of an accepted single-operation package on the records of a known device. */
  lemma {:induction false} EffectApplies(r: Records, k: Key, t: Tokens, op: Operation, request: Request, v: Verdict)
    requires v.Ruled? && v.ok && DecodeRequestBytes(op.payload) == Some(request) && TokensAgree(r.eims, k, t)
    ensures EffectOf(true, r, k, op, v) == PackageEffect(true, r, k, request.signed.pkg, v)
    ensures PackageEffect(true, r, k, request.signed.pkg, v).1.Applied?
  {
    hide DecodeRequestBytes, TokenFor;
    match Single(request.signed.pkg)
    case EcoOp(UpdateEim(c)) => assert TokenFor(r.eims, k, c.eimID) == Some(TokenOf(t, c.eimID));
    case _ =>
  }
}
