/**
 Whole runs of the eIM and one device: packages are signed and queued, other devices and
 other operations come and go, and the device polls and delivers its result some time
 later, again and again. Tokens and inventories stay in agreement, every upload is
 accepted, and no notification is lost.
 */
module Runs {
  import opened Octets
  import opened Tlv
  import Tags
  import opened EuiccPackage
  import opened Outcome
  import opened StoreState
  import opened Queue
  import opened Effects
  import opened Notifications
  import opened Handler
  import opened Device
  import opened Answers
  import opened Signing
  import opened Exchange
  import opened Agreement
  import opened Redelivery
  import opened Waiting
  import R = PackageResult

  /** An upload under way: the operation polled, and what the device prepared for it. */
  datatype Flight = Flight(op: Operation, request: Request, order: seq<Text>, sent: Sent)

  datatype System = System(w: World, d: Device, flight: Option<Flight>)

  datatype Happening = Outside(e: Event) | Poll(order: seq<Text>) | Deliver

  /** Nobody else writes the profiles and associated eIMs the eIM keeps of this device. */
  predicate Leaves(c: Call, k: Key) {
    match c
    case SetProfile(t, p) => KeyOf(t, p.eid) != k
    case DeleteProfile(j, _) => j != k
    case SetEim(t, a) => KeyOf(t, a.eid) != k
    case DeleteEim(j, _) => j != k
    case _ => true
  }

  /** The package handed out and what the device makes of it, if it is not busy. */
  ghost function Departure(env: Env, sys: System, order: seq<Text>): (r: Option<Sent>) {
    if sys.flight.Some? || !Inv(sys.w.s) then None else Offer(env, sys.w.s, sys.d, order)
  }

  ghost function Happened(env: Env, signer: Signer, sys: System, h: Happening): (r: System) {
    match h
    case Outside(e) => sys.(w := WorldStep(signer, sys.w, e))
    case Poll(order) =>
      (match Departure(env, sys, order)
       case None => sys
       case Some(sent) => Departed(env, sys, order, sent))
    case Deliver =>
      if sys.flight.None? || !Inv(sys.w.s) then sys else Delivered(env, sys, sys.flight.value.sent)
  }

  ghost function Departed(env: Env, sys: System, order: seq<Text>, sent: Sent): (r: System)
    requires Departure(env, sys, order) == Some(sent)
  {
    var s, k := sys.w.s, KeyIn(env);
    System(sys.w, sent.d, Some(Flight(Selected(s, k).value, Polled(s, k).value, order, sent)))
  }

  ghost function Delivered(env: Env, sys: System, sent: Sent): (r: System)
    requires Inv(sys.w.s)
  {
    var (t, reply) := Uploaded(env, sys.w.s, sent);
    System(sys.w.(s := t), Settled(sent, reply), None)
  }

  ghost function Ran(env: Env, signer: Signer, sys: System, hs: seq<Happening>): (r: System)
    decreases |hs|
  {
    if hs == [] then sys else Ran(env, signer, Happened(env, signer, sys, hs[0]), hs[1..])
  }

  // ---- what an upload does ----

  /** Effects and notifications leave the queues alone. */
  lemma {:induction false} CarriedWorld(w: World, tenantID: Text, eid: Text, u: Upload, op: Operation, v: Verdict)
    requires WorldInv(w)
    ensures WorldInv(w.(s := Carried(w.s, tenantID, eid, u, op, v).0))
  {
    var r := ResultOf(eid, op, v, u);
    RecordWorld(w, tenantID, r);
    CarriedInv(w.s, tenantID, eid, u, op, v);
    var (t, ok) := ResultRecorded(w.s, tenantID, r);
    if ok {
      var x := Carried(w.s, tenantID, eid, u, op, v).0;
      CarriedWrote(w.s, tenantID, eid, u, op, v);
      hide Carried, ResultRecorded, EffectOf, Inv, QueueOf, WorldInv, ResultOf;
      assert Inv(t) by { WorldHasInv(w.(s := t)); }
      forall k ensures QueueOf(x, k) == QueueOf(t, k) { QueueFrame(t, x, k); }
      KeptQueues(w.(s := t), x);
    } else {
      assert Carried(w.s, tenantID, eid, u, op, v).0 == t by { hide ResultRecorded, EffectOf, ResultOf; }
    }
  }

  lemma {:induction false} WorldHasInv(w: World)
    requires WorldInv(w)
    ensures Inv(w.s) && forall k :: QueueOk(w.s, k)
  {
  }

  lemma {:induction false} ProvidedWorld(w: World, tenantID: Text, eid: Text, t: Tlv, verify: Verifier)
    requires WorldInv(w)
    ensures WorldInv(w.(s := Provided(w.s, tenantID, eid, t, verify).0))
  {
    WorldHasInv(w);
    hide WorldInv, Inv, DecodeUpload, Carried, MatchResult, Judge;
    if DecodeUpload(t).Some? {
      var u := DecodeUpload(t).value;
      var d := Decide(w.s, KeyOf(tenantID, eid), u, verify);
      if d.Accept? { CarriedWorld(w, tenantID, eid, u, d.op, d.v); }
    }
  }

  /** What the device offers for a polled package. */
  lemma {:induction false} OfferParts(env: Env, s: State, d: Device, order: seq<Text>) returns (request: Request)
    requires Inv(s) && Offer(env, s, d, order).Some?
    ensures Polled(s, KeyIn(env)) == Some(request)
    ensures Enumerates(order, d.profiles) && NextNumber(d) < INT64_LIMIT
    ensures forall key :: key in order ==> key in d.profiles
    ensures var sent := Offer(env, s, d, order).value;
            && sent.pkg == request.signed.pkg && !Single(sent.pkg).NoOp?
            && SignedResult(d, request.signed, order, env.sign) == Some(sent.result)
            && sent.d.profiles == d.profiles && sent.d.tokens == d.tokens
            && (if NoteKind(sent.pkg).None? then sent.d == d && sent.notes == []
                else sent.d == NoteQueued(d, env.eidBytes, NoteKind(sent.pkg).value, env.sign)
                     && sent.notes == sent.d.pending && sent.notes != [])
  {
    hide Polled, Inv, ResultData, NoteTlv;
    request := Polled(s, KeyIn(env)).value;
    assert ResultData(request.signed.pkg, request.signed.eimID, d.profiles, order).Some? ==>
           !Single(request.signed.pkg).NoOp? by {
      NoOpHasNoResult(request.signed.pkg, request.signed.eimID, d.profiles, order);
    }
  }

  lemma {:induction false} NoOpHasNoResult(pkg: Package, eimID: Text, m: Inventory, order: seq<Text>)
    requires forall key :: key in order ==> key in m
    ensures Single(pkg).NoOp? <==> ResultData(pkg, eimID, m, order).None?
  {
    hide PsmoResult, EcoResult;
  }

  ghost predicate NotesOk(key: Text, pending: seq<Note>) { forall i :: 0 <= i < |pending| ==> NoteOk(key, pending[i]) }

  function ExpectedFor(pkg: Package, m: Inventory, order: seq<Text>): (v: Verdict)
    requires forall key :: key in order ==> key in m
    ensures v.Ruled? && v.ok
  {
    ExpectedRules(Single(pkg), m, order);
    Expected(Single(pkg), m, order)
  }

  lemma {:induction false} CarriedAccepts(
    env: Env, s: State, u: Upload, op: Operation, request: Request, v: Verdict, t: Tokens, notes: seq<Note>
  )
    requires var k := KeyIn(env);
             && Inv(s) && op in QueueOf(s, k) && DecodeRequestBytes(op.payload) == Some(request) && v.Ruled? && v.ok
             && TokensAgree(s.records.eims, k, t) && NotesOk(env.eid, notes)
    requires u.notifications == if notes == [] then None else Some(Cons(Tags.C0, NoteTlvs(notes)))
    ensures var (x, reply) := Carried(s, env.tenantID, env.eid, u, op, v);
            && x.records == PackageEffect(true, s.records, KeyIn(env), request.signed.pkg, v).0
            && reply.Ack? && forall i :: 0 <= i < |notes| ==> notes[i].number in reply.numbers
  {
    var k := KeyIn(env);
    MemberStored(s, k, op);
    CarriedQueue(s, env.tenantID, env.eid, u, op, v);
    CarriedReply(s, env.tenantID, env.eid, u, op, v);
    RecordedNotes(s, env.tenantID, ResultOf(env.eid, op, v, u));
    EffectApplies(s.records, k, t, op, request, v);
    hide Inv, QueueOf, DecodeRequestBytes, TokensAgree, ResultRecorded, ResultOf, Carried, EffectOf, PackageEffect,
         NotesOk;
    var after := ResultRecorded(s, env.tenantID, ResultOf(env.eid, op, v, u)).0;
    NotesAnswered(after, k, u, notes);
  }

  lemma {:induction false} NotesAnswered(s: State, k: Key, u: Upload, notes: seq<Note>)
    requires k in s.devices && NotesOk(k.eid, notes)
    requires u.notifications == if notes == [] then None else Some(Cons(Tags.C0, NoteTlvs(notes)))
    ensures var noted := StoreList(k in s.devices, s.notifications, k, u.notifications).1;
            && noted.Numbers?
            && forall i :: 0 <= i < |notes| ==>
               notes[i].number in Merged(Merged([], ResultNumbers(u.result)), noted.numbers)
  {
    hide NoteOk, Merged, ResultNumbers, NoteTlvs, StoreEach;
    AckMembers(s, k, u);
    if notes != [] {
      NotesStored(true, s.notifications, k, notes);
      hide StoreList;
      var numbers := StoreList(k in s.devices, s.notifications, k, u.notifications).1.numbers;
      forall i | 0 <= i < |notes| ensures notes[i].number in numbers { assert numbers[i] == notes[i].number; }
    }
  }

  // ---- the notifications of a run ----

  /** What has happened to notifications: those the device issued, and the numbers others stored under its name. */
  datatype History = History(issued: seq<Note>, foreign: set<int>)

  /** The notification the eIM makes of a note of the device. */
  function NotificationOf(key: Text, n: Note): (r: Option<Notification>) {
    match DecodePending(n.tlv)
    case None => None
    case Some(p) => ToNotification(key, p)
  }

  /** What is stored of a note is its whole encoding, under its own number. */
  lemma {:induction false} NotificationIsNote(key: Text, n: Note)
    requires NoteOk(key, n)
    ensures var m := NotificationOf(key, n);
            m.Some? && m.value.payload == Write(n.tlv) && m.value.sequenceNumber == n.number && m.value.eid == key
  {
    hide Write, MetadataOf, KindOf, DecodeInstallation;
  }

  /** The eIM holds the note itself, unless somebody else has stored under its number. */
  ghost predicate Held(s: State, k: Key, n: Note, foreign: set<int>) {
    && Slot(k, n.number) in s.notifications
    && (n.number in foreign || NotificationOf(k.eid, n) == Some(s.notifications[Slot(k, n.number)]))
  }

  /**
   The device's notes are numbered in the order of issue; every note issued is pending or
   held by the eIM.
   */
  ghost predicate NotesInv(k: Key, s: State, d: Device, hist: History) {
    && NotesOk(k.eid, hist.issued) && Numbered(hist.issued, NextNumber(d))
    && Numbered(d.pending, NextNumber(d)) && (forall n :: n in d.pending ==> n in hist.issued)
    && (forall n :: n in hist.issued ==> n in d.pending || Held(s, k, n, hist.foreign))
  }

  function IssuedIn(sent: Sent): (r: seq<Note>) { if sent.notes == [] then [] else [sent.notes[|sent.notes| - 1]] }

  function ForeignIn(k: Key, e: Event): (r: set<int>) {
    if e.Other? && e.call.StoreNotification? && KeyOf(e.call.tenantID, e.call.n.eid) == k
    then {e.call.n.sequenceNumber}
    else {}
  }

  ghost function Remembered(env: Env, sys: System, h: Happening, hist: History): (r: History) {
    match h
    case Outside(e) => hist.(foreign := hist.foreign + ForeignIn(KeyIn(env), e))
    case Poll(order) =>
      (match Departure(env, sys, order)
       case None => hist
       case Some(sent) => hist.(issued := hist.issued + IssuedIn(sent)))
    case Deliver => hist
  }

  ghost function Recalled(env: Env, signer: Signer, sys: System, hs: seq<Happening>, hist: History): (r: History)
    decreases |hs|
  {
    if hs == [] then hist
    else Recalled(env, signer, Happened(env, signer, sys, hs[0]), hs[1..], Remembered(env, sys, hs[0], hist))
  }

  // ---- the system invariant ----

  /** The polled operation still waits, and the upload was prepared from the device as it is. */
  ghost predicate FlightOk(env: Env, s: State, d: Device, f: Flight)
    requires Inv(s)
  {
    && f.op in Fetched(s, KeyIn(env), POLL_WINDOW) && f.op.kind == EuiccPackageKind && SignedOp(f.op)
    && DecodeRequestBytes(f.op.payload) == Some(f.request)
    && Enumerates(f.order, d.profiles) && (forall key :: key in f.order ==> key in d.profiles)
    && f.sent.d == d && (f.sent.notes == [] || f.sent.notes == d.pending)
    && f.sent.pkg == f.request.signed.pkg && !Single(f.sent.pkg).NoOp?
    && SignedResult(d, f.request.signed, f.order, env.sign) == Some(f.sent.result)
    && SendOk(f.sent)
  }

  /** A result within four length octets, and a package that names its eIM. */
  ghost predicate SendOk(sent: Sent) { Scannable(sent.result) && TokenSafe(Single(sent.pkg)) }

  ghost predicate SystemInv(env: Env, sys: System, hist: History) {
    && KeysMatch(env) && WorldInv(sys.w)
    && TokensAgree(sys.w.s.records.eims, KeyIn(env), sys.d.tokens)
    && NotesInv(KeyIn(env), sys.w.s, sys.d, hist)
    && (sys.flight.Some? ==> FlightOk(env, sys.w.s, sys.d, sys.flight.value))
  }

  /** What a run may contain: nobody else writes this device's records or finishes the operation under way. */
  ghost predicate HappeningOk(env: Env, sys: System, h: Happening) {
    match h
    case Outside(e) =>
      && EventOk(e) && (e.Other? ==> Leaves(e.call, KeyIn(env)))
      && (sys.flight.Some? ==> Spares(sys.w.s, KeyIn(env), sys.flight.value.op, e))
    case Poll(order) => Departure(env, sys, order).Some? ==> SendOk(Departure(env, sys, order).value)
    case Deliver => true
  }

  ghost predicate RunOk(env: Env, signer: Signer, sys: System, hs: seq<Happening>)
    decreases |hs|
  {
    hs == [] || (HappeningOk(env, sys, hs[0]) && RunOk(env, signer, Happened(env, signer, sys, hs[0]), hs[1..]))
  }

  // ---- polling ----

  lemma {:induction false} NotesAppend(key: Text, pending: seq<Note>, n: Note)
    requires NotesOk(key, pending) && NoteOk(key, n)
    ensures NotesOk(key, pending + [n])
  {
    hide NoteOk;
  }

  lemma {:induction false} NumberedNext(pending: seq<Note>, n: Note, next: int)
    requires Numbered(pending, next) && n.number == next >= 1
    ensures Numbered(pending + [n], next + 1)
  {
  }

  /** A new note gets the next number and the eIM can read it. */
  lemma {:induction false} NewNote(env: Env, d: Device, kind: Text) returns (n: Note)
    requires NextNumber(d) < INT64_LIMIT
    ensures NoteOk(env.eid, n) && n.number == NextNumber(d)
    ensures var e := NoteQueued(d, env.eidBytes, kind, env.sign);
            e.pending == d.pending + [n] && NextNumber(e) == NextNumber(d) + 1
  {
    n := Note(NextNumber(d), NoteTlv(env.eidBytes, NextNumber(d), kind, env.sign));
    NoteIsRead(env.eidBytes, n.number, kind, env.sign, env.eid);
    hide NoteTlv, DecodePending, ToNotification;
  }

  lemma {:induction false} IssueKeeps(k: Key, s: State, d: Device, e: Device, hist: History, n: Note)
    requires NotesInv(k, s, d, hist) && NoteOk(k.eid, n) && n.number == NextNumber(d)
    requires e.pending == d.pending + [n] && NextNumber(e) == NextNumber(d) + 1
    ensures NotesInv(k, s, e, hist.(issued := hist.issued + [n]))
  {
    hide NotesOk, Numbered, Held, NoteOk;
    NotesAppend(k.eid, hist.issued, n);
    NumberedNext(hist.issued, n, n.number);
    NumberedNext(d.pending, n, n.number);
  }

  lemma {:induction false} PollNotes(env: Env, s: State, d: Device, order: seq<Text>, hist: History)
    requires Inv(s) && Offer(env, s, d, order).Some? && NotesInv(KeyIn(env), s, d, hist)
    ensures var sent := Offer(env, s, d, order).value;
            NotesInv(KeyIn(env), s, sent.d, hist.(issued := hist.issued + IssuedIn(sent)))
  {
    hide Offer, Inv, NotesInv, NoteQueued, Polled, Enumerates, SignedResult;
    var request := OfferParts(env, s, d, order);
    var sent := Offer(env, s, d, order).value;
    if NoteKind(sent.pkg).Some? {
      var n := NewNote(env, d, NoteKind(sent.pkg).value);
      IssueKeeps(KeyIn(env), s, d, sent.d, hist, n);
    } else {
      assert hist.issued + IssuedIn(sent) == hist.issued;
    }
  }

  lemma {:induction false} SameSigned(d: Device, e: Device, request: Signed, order: seq<Text>, sign: seq<Octet> -> Text)
    requires d.profiles == e.profiles && d.tokens == e.tokens && forall key :: key in order ==> key in d.profiles
    ensures SignedResult(d, request, order, sign) == SignedResult(e, request, order, sign)
  {
    hide ResultData, Write, R.DataTlv, SignatureInput;
  }

  lemma {:induction false} PollKeeps(env: Env, sys: System, order: seq<Text>, hist: History)
    requires SystemInv(env, sys, hist) && Departure(env, sys, order).Some? && SendOk(Departure(env, sys, order).value)
    ensures var sent := Departure(env, sys, order).value;
            SystemInv(env, Departed(env, sys, order, sent), hist.(issued := hist.issued + IssuedIn(sent)))
  {
    hide WorldInv, Offer, Inv, TokensAgree, NotesInv, SendOk, KeysMatch, QueueOf, SignedQueue, Polled, SignedResult,
         Enumerates, Fetched, SignedOp, DecodeRequestBytes, CountersBelow, Selected, NoteQueued;
    var s, k := sys.w.s, KeyIn(env);
    var sent := Offer(env, s, sys.d, order).value;
    WorldHasInv(sys.w);
    assert QueueOk(s, k);
    var request := OfferParts(env, s, sys.d, order);
    var op := PolledIs(s, k);
    PollNotes(env, s, sys.d, order, hist);
    SameSigned(sys.d, sent.d, request.signed, order, env.sign);
  }

  // ---- delivering ----

  /** The result is matched to the polled operation and judged a success. */
  lemma {:induction false} DeliveryJudged(env: Env, s: State, d: Device, f: Flight)
    requires KeysMatch(env) && Inv(s) && TokensAgree(s.records.eims, KeyIn(env), d.tokens)
             && SignedQueue(QueueOf(s, KeyIn(env)))
    requires FlightOk(env, s, d, f)
    ensures var u := DecodeUpload(UploadTlv(f.sent.result, f.sent.notes));
            u.Some? && Decide(s, KeyIn(env), u.value, env.verify) ==
              Accept(f.op, ExpectedFor(f.sent.pkg, d.profiles, f.order))
  {
    hide UploadTlv, DecodeUpload, SignedOp, Judge, MatchResult, Scannable, SignedResult, Inv, QueueOf, SignedQueue,
         TokensAgree, DecodeRequestBytes, R.ResultTlv, Write, Expected, Fetched, Enumerates;
    var k := KeyIn(env);
    UploadDecodes(f.sent.result, f.sent.notes);
    SignedResultNames(d, f.request.signed, f.order, env.sign);
    ResultMatches(s, k, f.op, f.request, f.sent.result);
    ResultIsJudged(env, s.records.eims, k, d, f.op, f.request, f.order);
  }

  lemma {:induction false} SignedResultNames(d: Device, request: Signed, order: seq<Text>, sign: seq<Octet> -> Text)
    requires (forall key :: key in order ==> key in d.profiles) && SignedResult(d, request, order, sign).Some?
    ensures var r := SignedResult(d, request, order, sign).value;
            r.ResultSigned? && r.data.eimID == request.eimID && r.data.counter == request.counter
            && r.data.transactionID == request.transactionID && r.data.seqNumber == 0
  {
    hide ResultData, Write, R.DataTlv;
  }

  lemma {:induction false} IssuedNotesOk(k: Key, s: State, d: Device, hist: History)
    requires NotesInv(k, s, d, hist)
    ensures NotesOk(k.eid, d.pending)
  {
    hide NoteOk, Numbered, Held;
    forall i | 0 <= i < |d.pending| ensures NoteOk(k.eid, d.pending[i]) { assert d.pending[i] in d.pending; }
  }

  lemma {:induction false} NoNotesOk(key: Text)
    ensures NotesOk(key, [])
  {
  }

  /** The effect of an accepted package on the records; every note sent is acknowledged. */
  ghost predicate Accepted(env: Env, s: State, d: Device, f: Flight, t: State, reply: Reply)
    requires forall key :: key in f.order ==> key in d.profiles
  {
    && t.records ==
       PackageEffect(true, s.records, KeyIn(env), f.sent.pkg, ExpectedFor(f.sent.pkg, d.profiles, f.order)).0
    && reply.Ack? && forall i :: 0 <= i < |f.sent.notes| ==> f.sent.notes[i].number in reply.numbers
  }

  /** The upload of a device in agreement is accepted, applied and wholly acknowledged. */
  lemma {:induction false} DeliveryAccepted(env: Env, sys: System, hist: History)
    requires SystemInv(env, sys, hist) && sys.flight.Some? && Inv(sys.w.s)
    ensures forall key :: key in sys.flight.value.order ==> key in sys.d.profiles
    ensures var f := sys.flight.value;
            var (t, reply) := Uploaded(env, sys.w.s, f.sent);
            Accepted(env, sys.w.s, sys.d, f, t, reply) && PackageOk(f.sent.pkg) && PackageFits(f.sent.pkg)
  {
    hide WorldInv, QueueOf, NotesOk, Judge, MatchResult, TokensAgree, SignedResult, Scannable, DecodeUpload,
         UploadTlv, Inv, SignedQueue, Carried, PackageEffect, Enumerates, ExpectedFor, DecodeRequestBytes,
         PackageOk, PackageFits, Numbered, Held, CountersBelow, KeysMatch, Decide, TokenSafe, NormalRequest, Fetched;
    var s, k, f := sys.w.s, KeyIn(env), sys.flight.value;
    WorldHasInv(sys.w);
    assert QueueOk(s, k);
    IssuedNotesOk(k, s, sys.d, hist);
    NoNotesOk(env.eid);
    FetchedMember(s, k, POLL_WINDOW);
    DeliveryJudged(env, s, sys.d, f);
    UploadDecodes(f.sent.result, f.sent.notes);
    var u := DecodeUpload(UploadTlv(f.sent.result, f.sent.notes)).value;
    CarriedAccepts(env, s, u, f.op, f.request, ExpectedFor(f.sent.pkg, sys.d.profiles, f.order), sys.d.tokens,
      f.sent.notes);
  }

  // ---- what is retired is stored ----

  lemma {:induction false} ListDecodes(key: Text, notes: seq<Note>)
    requires NotesOk(key, notes)
    ensures var ps := DecodePendingList(Cons(Tags.C0, NoteTlvs(notes)));
            && ps.Some? && |ps.value| == |notes|
            && forall i :: 0 <= i < |notes| ==> DecodePending(notes[i].tlv) == Some(ps.value[i])
  {
    hide DecodePending, ToNotification;
    var ts := NoteTlvs(notes);
    var ps := seq(|notes|, i requires 0 <= i < |notes| => DecodePending(notes[i].tlv).Extract());
    forall i | 0 <= i < |ts| ensures DecodePending(ts[i]) == Some(ps[i]) { assert NoteOk(key, notes[i]); }
    DecodeAllOf(ts, DecodePending, ps);
  }

  /** A number the list accounts for is that of one of its notes, and that note is what the store holds. */
  lemma {:induction false} ListHoldsNote(k: Key, notes: seq<Note>, m: Notes, n: int) returns (i: nat)
    requires NotesOk(k.eid, notes) && ListHolds(k, Some(Cons(Tags.C0, NoteTlvs(notes))), m, n)
    ensures i < |notes| && notes[i].number == n && Slot(k, n) in m
            && NotificationOf(k.eid, notes[i]) == Some(m[Slot(k, n)])
  {
    ListDecodes(k.eid, notes);
    hide DecodePending, ToNotification, DecodePendingList, NoteTlvs;
    var ps := DecodePendingList(Cons(Tags.C0, NoteTlvs(notes))).value;
    i :| 0 <= i < |ps| && LastWith(k, ps, i, n) && ToNotification(k.eid, ps[i]) == Some(m[Slot(k, n)]);
    assert NoteOk(k.eid, notes[i]);
  }

  /** The acknowledged numbers are those of notes the device sent, and under each the eIM holds that note. */
  lemma {:induction false} AckedNotes(
    k: Key, u: Upload, before: Notes, after: Notes, numbers: seq<int>, notes: seq<Note>
  )
    requires AckMeans(k, u, before, after, numbers) && NotesOk(k.eid, notes) && ResultNumbers(u.result) == []
    requires u.notifications == if notes == [] then None else Some(Cons(Tags.C0, NoteTlvs(notes)))
    requires forall i, j :: 0 <= i < j < |notes| ==> notes[i].number != notes[j].number
    ensures forall n :: n in notes && n.number in numbers ==>
              Slot(k, n.number) in after && NotificationOf(k.eid, n) == Some(after[Slot(k, n.number)])
    ensures forall m :: m in numbers ==> exists i :: 0 <= i < |notes| && notes[i].number == m
  {
    hide NotesOk, NoteTlvs, HoldsLast, DecodePendingList, NotificationOf, Unique, ResultNumbers;
    forall m | m in numbers ensures exists i :: 0 <= i < |notes| && notes[i].number == m {
      assert ListHolds(k, u.notifications, after, m);
      var i := ListHoldsNote(k, notes, after, m);
    }
    forall n | n in notes && n.number in numbers
      ensures Slot(k, n.number) in after && NotificationOf(k.eid, n) == Some(after[Slot(k, n.number)])
    {
      assert ListHolds(k, u.notifications, after, n.number);
      var i := ListHoldsNote(k, notes, after, n.number);
      var j :| 0 <= j < |notes| && notes[j] == n;
    }
  }

  /** In a list in the order of issue, a note is known by its number. */
  lemma {:induction false} NumberedDistinct(q: seq<Note>, next: int)
    requires Numbered(q, next)
    ensures forall a, b :: a in q && b in q && a.number == b.number ==> a == b
    ensures forall i, j :: 0 <= i < j < |q| ==> q[i].number != q[j].number
  {
    forall a, b | a in q && b in q && a.number == b.number ensures a == b {
      var i, j :| 0 <= i < |q| && 0 <= j < |q| && q[i] == a && q[j] == b;
    }
  }

  /**
   Whatever note a delivery retires from the device's queue, the eIM holds that very note
   at that moment, whole, and the acknowledgement list has no duplicates.
   */
  lemma {:induction false} RetiredAreStored(env: Env, sys: System, hist: History)
    requires SystemInv(env, sys, hist) && sys.flight.Some? && Inv(sys.w.s)
    ensures var k, f := KeyIn(env), sys.flight.value;
            var (t, reply) := Uploaded(env, sys.w.s, f.sent);
            && reply.Ack? && Unique(reply.numbers) && sys.w.s.notifications.Keys <= t.notifications.Keys
            && (forall n :: n in f.sent.notes && n.number in reply.numbers ==>
                  Slot(k, n.number) in t.notifications && NotificationOf(env.eid, n) ==
                    Some(t.notifications[Slot(k, n.number)]))
            && (forall m :: m in reply.numbers ==> exists i :: 0 <= i < |f.sent.notes| && f.sent.notes[i].number == m)
            && (forall x :: x in sys.w.s.notifications && !(x.device == k && x.name in reply.numbers) ==>
                  x in t.notifications && t.notifications[x] == sys.w.s.notifications[x])
  {
    hide WorldInv, TokensAgree, KeysMatch, Inv, Provided, UploadTlv, DecodeUpload, NotesOk, Numbered, Held, QueueOf,
         SignedQueue, Fetched, SignedOp, DecodeRequestBytes, SignedResult, Enumerates, SendOk, NotificationOf,
         NoteTlvs, PackageEffect, ExpectedFor, PackageOk, PackageFits, Unique;
    var s, k, f := sys.w.s, KeyIn(env), sys.flight.value;
    var (t, reply) := Uploaded(env, s, f.sent);
    DeliveryAccepted(env, sys, hist);
    SignedResultNames(sys.d, f.request.signed, f.order, env.sign);
    UploadDecodes(f.sent.result, f.sent.notes);
    AcknowledgedAreStored(s, env.tenantID, env.eid, UploadTlv(f.sent.result, f.sent.notes), env.verify);
    IssuedNotesOk(k, s, sys.d, hist);
    NoNotesOk(env.eid);
    NumberedDistinct(sys.d.pending, NextNumber(sys.d));
    var u := DecodeUpload(UploadTlv(f.sent.result, f.sent.notes)).value;
    AckedNotes(k, u, s.notifications, t.notifications, reply.numbers, f.sent.notes);
  }

  lemma {:induction false} AppliedKeepsNotes(d: Device, pkg: Package)
    ensures OperationApplied(d, pkg).pending == d.pending && OperationApplied(d, pkg).nextNumber == d.nextNumber
  {
  }

  /** What is left of the queue when a list of numbers is acknowledged; nothing when it is not an acknowledgement. */
  function AckedBy(sent: Sent, reply: Reply): (r: seq<int>) {
    if sent.notes == [] || !reply.Ack? then [] else reply.numbers
  }

  lemma {:induction false} SettledNotes(sent: Sent, reply: Reply)
    ensures Settled(sent, reply).pending == Unacknowledged(sent.d.pending, AckedBy(sent, reply))
    ensures NextNumber(Settled(sent, reply)) == NextNumber(sent.d)
    ensures !reply.Faulted? ==> Settled(sent, reply).tokens == OperationApplied(sent.d, sent.pkg).tokens
                                && Settled(sent, reply).profiles == OperationApplied(sent.d, sent.pkg).profiles
  {
    hide OperationApplied, Unacknowledged;
    AppliedKeepsNotes(sent.d, sent.pkg);
    UnacknowledgedIs(sent.d.pending, []);
  }

  /** Every note issued is still pending or held after a delivery. */
  lemma {:induction false} DeliveryNotes(
    k: Key, s: State, t: State, d: Device, e: Device, numbers: seq<int>, hist: History
  )
    requires NotesInv(k, s, d, hist) && NextNumber(e) == NextNumber(d)
             && e.pending == Unacknowledged(d.pending, numbers)
    requires s.notifications.Keys <= t.notifications.Keys
    requires forall n :: n in d.pending && n.number in numbers ==>
               Slot(k, n.number) in t.notifications && NotificationOf(k.eid, n) ==
                 Some(t.notifications[Slot(k, n.number)])
    requires forall m :: m in numbers ==> exists i :: 0 <= i < |d.pending| && d.pending[i].number == m
    requires forall x :: x in s.notifications && !(x.device == k && x.name in numbers) ==>
               x in t.notifications && t.notifications[x] == s.notifications[x]
    ensures NotesInv(k, t, e, hist)
  {
    hide NotesOk, Numbered, NotificationOf, Unacknowledged;
    UnacknowledgedIs(d.pending, numbers);
    UnacknowledgedNumbered(d.pending, numbers, NextNumber(d));
    NumberedDistinct(hist.issued, NextNumber(d));
    forall n | n in hist.issued && n.number in numbers ensures n in d.pending {
      var i :| 0 <= i < |d.pending| && d.pending[i].number == n.number;
      assert d.pending[i] in d.pending;
    }
    forall n | n in hist.issued ensures n in e.pending || Held(t, k, n, hist.foreign) {
      if n !in d.pending {
        var x: Slot<int> := Slot(k, n.number);
        assert x in s.notifications && !(x.device == k && x.name in numbers);
      }
    }
  }

  lemma {:induction false} NoNotesNoNumbers(notes: seq<Note>, numbers: seq<int>)
    requires forall m :: m in numbers ==> exists i :: 0 <= i < |notes| && notes[i].number == m
    ensures notes == [] ==> numbers == []
  {
    if numbers != [] {
      var m := numbers[0];
      assert m in numbers;
      var i :| 0 <= i < |notes| && notes[i].number == m;
    }
  }

  lemma {:induction false} DeliverKeeps(env: Env, sys: System, hist: History)
    requires SystemInv(env, sys, hist) && sys.flight.Some? && Inv(sys.w.s)
    ensures SystemInv(env, Delivered(env, sys, sys.flight.value.sent), hist)
  {
    hide WorldInv, Inv, TokensAgree, NotesInv, Settled, KeysMatch, QueueOf, PackageEffect, OperationApplied,
         PackageOk, PackageFits, ExpectedFor, TokenSafe, Enumerates, SignedResult, Unacknowledged, Provided,
         UploadTlv, Fetched, SignedOp, DecodeRequestBytes, Unique, NotificationOf, Scannable;
    var s, k, f := sys.w.s, KeyIn(env), sys.flight.value;
    var (t, reply) := Uploaded(env, s, f.sent);
    DeliveryAccepted(env, sys, hist);
    RetiredAreStored(env, sys, hist);
    ProvidedWorld(sys.w, env.tenantID, env.eid, UploadTlv(f.sent.result, f.sent.notes), env.verify);
    ExpectedIs(f.sent.pkg, sys.d.profiles, f.order);
    TokensAfter(s.records, k, f.sent.d, f.sent.pkg, f.order);
    SettledNotes(f.sent, reply);
    NoNotesNoNumbers(f.sent.notes, reply.numbers);
    DeliveryNotes(k, s, t, sys.d, Settled(f.sent, reply), AckedBy(f.sent, reply), hist);
  }

  lemma {:induction false} ExpectedIs(pkg: Package, m: Inventory, order: seq<Text>)
    requires forall key :: key in order ==> key in m
    ensures ExpectedFor(pkg, m, order) == Expected(Single(pkg), m, order)
  {
  }

  // ---- everything else ----

  /** The entries of device k are the same. */
  ghost predicate Kept<V(!new)>(a: map<Slot<Text>, V>, b: map<Slot<Text>, V>, k: Key) {
    && (forall x: Slot<Text> :: x.device == k ==> (x in a <==> x in b))
    && (forall x: Slot<Text> :: x.device == k && x in a ==> x in b && b[x] == a[x])
  }

  lemma {:induction false} PutElsewhere<V(!new)>(a: map<Slot<Text>, V>, x: Slot<Text>, v: V, k: Key)
    requires x.device != k
    ensures Kept(a, a[x := v], k) && Kept(a, a - {x}, k)
  {
  }

  lemma {:induction false} KeptSame<V(!new)>(a: map<Slot<Text>, V>, k: Key)
    ensures Kept(a, a, k)
  {
  }

  /** The eIM's records of device k are the same; its notifications too, but for the foreign numbers. */
  ghost predicate RecordsKept(s: State, t: State, k: Key, foreign: set<int>) {
    && Kept(s.records.eims, t.records.eims, k) && Kept(s.records.profiles, t.records.profiles, k)
    && NotificationsKept(s.notifications, t.notifications, k, foreign)
  }

  ghost predicate NotificationsKept(a: Notes, b: Notes, k: Key, foreign: set<int>) {
    && (forall x :: x in a ==> x in b)
    && (forall x :: x in a && x.device == k && x.name !in foreign ==> b[x] == a[x])
  }

  lemma {:induction false} SameRecords(s: State, t: State, k: Key, foreign: set<int>)
    requires t.records == s.records && t.notifications == s.notifications
    ensures RecordsKept(s, t, k, foreign)
  {
    hide Kept;
    KeptSame(s.records.eims, k);
    KeptSame(s.records.profiles, k);
  }

  lemma {:induction false} StoredElsewhere(s: State, tenantID: Text, n: Notification, k: Key)
    ensures NotificationsKept(s.notifications, NotificationStored(s, tenantID, n).0.notifications, k,
                              ForeignIn(k, Other(StoreNotification(tenantID, n))))
  {
    hide Tenant;
    assert KeyOf(tenantID, n.eid).eid == n.eid;
  }

  lemma {:induction false} StepLeaves(s: State, c: Call, k: Key)
    requires Leaves(c, k)
    ensures RecordsKept(s, Step(s, c), k, ForeignIn(k, Other(c)))
  {
    hide KeyOf, FinishAll, Addressed, Kept;
    KeptSame(s.records.eims, k);
    KeptSame(s.records.profiles, k);
    match c
    case SetProfile(t, p) => PutElsewhere(s.records.profiles, Slot(KeyOf(t, p.eid), p.iccid), p, k);
    case DeleteProfile(j, iccid) =>
      var x := Slot(j, iccid);
      if x in s.records.profiles { PutElsewhere(s.records.profiles, x, s.records.profiles[x], k); }
    case SetEim(t, a) => PutElsewhere(s.records.eims, Slot(KeyOf(t, a.eid), a.eimID), a, k);
    case DeleteEim(j, eimID) =>
      var x := Slot(j, eimID);
      if x in s.records.eims { PutElsewhere(s.records.eims, x, s.records.eims[x], k); }
    case StoreNotification(t, n) =>
      StoredElsewhere(s, t, n, k);
      hide NotificationsKept;
    case _ =>
  }

  lemma {:induction false} OutsideLeaves(env: Env, signer: Signer, w: World, e: Event)
    requires e.Other? ==> Leaves(e.call, KeyIn(env))
    ensures RecordsKept(w.s, WorldStep(signer, w, e).s, KeyIn(env), ForeignIn(KeyIn(env), e))
  {
    hide RecordsKept, Leaves, Step, ForeignIn;
    var k := KeyIn(env);
    match e
    case Other(call) => StepLeaves(w.s, call, k);
    case SignPackage(j, input) =>
      SignedStates(signer, w.s, j, input);
      hide Sign;
      SameRecords(w.s, WorldStep(signer, w, e).s, k, ForeignIn(k, e));
    case Post(i) =>
      hide EncodeRequest;
      SameRecords(w.s, WorldStep(signer, w, e).s, k, ForeignIn(k, e));
  }

  lemma {:induction false} TokensStay(s: State, t: State, k: Key, tokens: Tokens, foreign: set<int>)
    requires RecordsKept(s, t, k, foreign) && TokensAgree(s.records.eims, k, tokens)
    ensures TokensAgree(t.records.eims, k, tokens)
  {
    hide DecodeConfigBytes, TokenOf;
    forall id ensures TokenFor(t.records.eims, k, id) == Some(TokenOf(tokens, id)) {
      assert TokenFor(s.records.eims, k, id) == Some(TokenOf(tokens, id));
      var x: Slot<Text> := Slot(k, id);
      assert x.device == k;
    }
  }

  lemma {:induction false} NotesStay(s: State, t: State, k: Key, d: Device, hist: History, foreign: set<int>)
    requires RecordsKept(s, t, k, foreign) && NotesInv(k, s, d, hist)
    ensures NotesInv(k, t, d, hist.(foreign := hist.foreign + foreign))
  {
    hide Kept, NotesOk, Numbered, NotificationOf;
    forall n | n in hist.issued && n !in d.pending ensures Held(t, k, n, hist.foreign + foreign) {
      assert Held(s, k, n, hist.foreign);
      var x: Slot<int> := Slot(k, n.number);
      assert x in s.notifications && x.device == k;
    }
  }

  lemma {:induction false} FlightStays(env: Env, signer: Signer, w: World, d: Device, f: Flight, e: Event)
    requires Inv(w.s) && FlightOk(env, w.s, d, f) && Spares(w.s, KeyIn(env), f.op, e) && Inv(WorldStep(signer, w, e).s)
    ensures FlightOk(env, WorldStep(signer, w, e).s, d, f)
  {
    hide Inv, WorldStep, Spares, Fetched, SignedOp, DecodeRequestBytes, Enumerates, SignedResult, SendOk, QueueOf,
         Onward;
    var k := KeyIn(env);
    FetchedAt(w.s, k, f.op, POLL_WINDOW);
    EventOnward(signer, w, e, k, f.op);
    StaysFetched(w.s, WorldStep(signer, w, e).s, k, f.op, POLL_WINDOW);
  }

  lemma {:induction false} OutsideKeeps(env: Env, signer: Signer, sys: System, e: Event, hist: History)
    requires SystemInv(env, sys, hist) && HappeningOk(env, sys, Outside(e))
    ensures SystemInv(env, sys.(w := WorldStep(signer, sys.w, e)),
            hist.(foreign := hist.foreign + ForeignIn(KeyIn(env), e)))
  {
    hide WorldInv, WorldStep, TokensAgree, NotesInv, Inv, EventOk, Leaves, FlightOk, KeysMatch, Spares, RecordsKept,
         ForeignIn;
    var k, after := KeyIn(env), WorldStep(signer, sys.w, e);
    WorldHasInv(sys.w);
    WorldStepInv(signer, sys.w, e);
    WorldHasInv(after);
    OutsideLeaves(env, signer, sys.w, e);
    TokensStay(sys.w.s, after.s, k, sys.d.tokens, ForeignIn(k, e));
    NotesStay(sys.w.s, after.s, k, sys.d, hist, ForeignIn(k, e));
    if sys.flight.Some? { FlightStays(env, signer, sys.w, sys.d, sys.flight.value, e); }
  }

  // ---- whole runs ----

  lemma {:induction false} HappeningKeeps(env: Env, signer: Signer, sys: System, h: Happening, hist: History)
    requires SystemInv(env, sys, hist) && HappeningOk(env, sys, h)
    ensures SystemInv(env, Happened(env, signer, sys, h), Remembered(env, sys, h, hist))
  {
    hide SystemInv, Departure, Departed, Delivered, WorldStep, Inv, SendOk, ForeignIn, IssuedIn;
    match h
    case Outside(e) => OutsideKeeps(env, signer, sys, e, hist);
    case Poll(order) => if Departure(env, sys, order).Some? { PollKeeps(env, sys, order, hist); }
    case Deliver => if sys.flight.Some? && Inv(sys.w.s) { DeliverKeeps(env, sys, hist); }
  }

  /**
   In every run the eIM and the device hold the same association token for every eIM ID,
   and every notification the device issued, numbered in the order of issue, is pending or
   held by the eIM.
   */
  lemma {:induction false} RunsKeepAgreement(env: Env, signer: Signer, sys: System, hs: seq<Happening>, hist: History)
    requires SystemInv(env, sys, hist) && RunOk(env, signer, sys, hs)
    ensures SystemInv(env, Ran(env, signer, sys, hs), Recalled(env, signer, sys, hs, hist))
    decreases |hs|
  {
    hide SystemInv, HappeningOk, Happened, Remembered;
    if hs != [] {
      HappeningKeeps(env, signer, sys, hs[0], hist);
      RunsKeepAgreement(env, signer, Happened(env, signer, sys, hs[0]), hs[1..], Remembered(env, sys, hs[0], hist));
    }
  }

  /** An empty eIM and a device without tokens or notifications are in agreement. */
  lemma {:induction false} FreshAgree(env: Env, d: Device)
    requires KeysMatch(env) && d.tokens == map[] && d.pending == []
    ensures SystemInv(env, System(World(Empty(), []), d, None), History([], {}))
  {
    EmptyWorld();
    hide WorldInv, KeysMatch;
  }

  /** Whatever has happened before, an upload under way is acknowledged when it is delivered. */
  lemma {:induction false} EveryDeliveryIsAcknowledged(
    env: Env, signer: Signer, sys: System, hs: seq<Happening>, hist: History
  )
    requires SystemInv(env, sys, hist) && RunOk(env, signer, sys, hs)
    ensures Inv(Ran(env, signer, sys, hs).w.s)
    ensures var now := Ran(env, signer, sys, hs);
            now.flight.Some? ==> Uploaded(env, now.w.s, now.flight.value.sent).1.Ack?
  {
    hide RunOk, Ran, Uploaded;
    RunsKeepAgreement(env, signer, sys, hs, hist);
    var now, later := Ran(env, signer, sys, hs), Recalled(env, signer, sys, hs, hist);
    WorldHasInv(now.w);
    hide SystemInv, Inv;
    if now.flight.Some? { DeliveryAccepted(env, now, later); }
  }

  /** In every run in which packages come from Sign, delivering a signed result again changes nothing. */
  lemma {:induction false} RedeliveryInRuns(
    signer: Signer, events: seq<Event>, tenantID: Text, eid: Text, t: Tlv, verify: Verifier
  )
    requires forall i :: 0 <= i < |events| ==> EventOk(events[i])
    requires DecodeUpload(t).Some? ==> Redeliverable(DecodeUpload(t).value)
    ensures Inv(WorldRun(signer, World(Empty(), []), events).s)
    ensures var s := WorldRun(signer, World(Empty(), []), events).s;
            var x := Provided(s, tenantID, eid, t, verify).0;
            Inv(x) && Provided(x, tenantID, eid, t, verify).0 == x
  {
    EmptyWorld();
    WorldRunInv(signer, World(Empty(), []), events);
    var w := WorldRun(signer, World(Empty(), []), events);
    WorldHasInv(w);
    hide WorldRun, WorldInv, Inv, QueueOf, SignedQueue, Provided, DecodeUpload, Redeliverable;
    assert QueueOk(w.s, KeyOf(tenantID, eid));
    RedeliveryIsHarmless(w.s, tenantID, eid, t, verify);
  }
}
