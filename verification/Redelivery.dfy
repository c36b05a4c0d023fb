/** Handling the same signed package result a second time leaves the store as it is. */
module Redelivery {
  import opened Octets
  import opened Tlv
  import opened EuiccPackage
  import opened Outcome
  import opened StoreState
  import opened Queue
  import opened Effects
  import opened Notifications
  import opened Handler
  import R = PackageResult

  // ---- recording twice ----

  lemma {:induction false} FinishTwice(ops: map<int, Stored>, tenant: Text, r: Recorded)
    ensures FinishAll(FinishAll(ops, tenant, r), tenant, r) == FinishAll(ops, tenant, r)
  {
    var a := FinishAll(ops, tenant, r);
    assert FinishAll(a, tenant, r).Keys == a.Keys;
    forall id | id in a ensures FinishAll(a, tenant, r)[id] == a[id] {
      assert Concerns(r, tenant, a[id]) <==> Concerns(r, tenant, ops[id]);
    }
  }

  lemma {:induction false} AddressedAgain(s: State, t: State, tenant: Text, r: Recorded)
    requires Addressed(s, tenant, r).Some?
    requires t.operations == FinishAll(s.operations, tenant, Addressed(s, tenant, r).value)
    ensures Addressed(t, tenant, r) == Addressed(s, tenant, r)
  {
    var x := Addressed(s, tenant, r).value;
    FinishKeys(s.operations, tenant, x);
    if r.operationID != 0 { FinishKeepsPlaces(s, tenant, x, r.operationID); }
    hide FinishAll, Concerns;
  }

  lemma {:induction false} RecordTwice(s: State, t: State, tenantID: Text, r: Recorded)
    requires ResultRecorded(s, tenantID, r).1
    requires var u := ResultRecorded(s, tenantID, r).0;
             t.devices == u.devices && t.operations == u.operations && t.results == u.results
    ensures ResultRecorded(t, tenantID, r) == (t, true)
  {
    var tenant := Tenant(tenantID);
    var x := Addressed(s, tenant, r).value;
    assert t.operations == FinishAll(s.operations, tenant, x);
    AddressedAgain(s, t, tenant, r);
    FinishTwice(s.operations, tenant, x);
    hide Addressed, FinishAll;
    PutTwice(s.results, Slot(Key(tenant, x.eid), x.sequenceNumber), x);
  }

  // ---- what an accepted upload keeps ----

  lemma {:induction false} EnabledOk(s: State, k: Key, iccid: Text, on: bool)
    requires ProfilesOk(s) && k in s.devices
    ensures ProfilesOk(s.(records := s.records.(profiles := EnabledSet(s.records.profiles, k, iccid, on))))
  {
  }

  lemma {:induction false} SyncedOk(s: State, k: Key, views: seq<ProfileView>)
    requires ProfilesOk(s) && k in s.devices
    ensures ProfilesOk(s.(records := s.records.(profiles := Synced(s.records.profiles, k, views))))
  {
    var m := s.records.profiles;
    forall x | x in Synced(m, k, views)
      ensures x.device in s.devices && Synced(m, k, views)[x].eid == x.device.eid
              && Synced(m, k, views)[x].iccid == x.name
    {
      OverlayAt(Others(m, k), Others(m, k), m, k, views, x);
    }
  }

  lemma {:induction false} FallbackOk(s: State, k: Key, iccid: Text)
    requires ProfilesOk(s) && k in s.devices
    ensures ProfilesOk(s.(records := s.records.(profiles := FallbackSet(s.records.profiles, k, iccid))))
  {
  }

  lemma {:induction false} ClearedOk(s: State, k: Key)
    requires ProfilesOk(s)
    ensures ProfilesOk(s.(records := s.records.(profiles := FallbackCleared(s.records.profiles, k))))
  {
  }

  lemma {:induction false} EffectProfiles(s: State, k: Key, op: Operation, v: Verdict)
    requires ProfilesOk(s)
    ensures ProfilesOk(s.(records := EffectOf(k in s.devices, s.records, k, op, v).0))
  {
    hide DecodeRequestBytes, EnabledSet, Synced, FallbackSet, FallbackCleared, ProfilesOk, Hex;
    SameProfiles(s);
    if StatusFor(v) == Done && DecodeRequestBytes(op.payload).Some? {
      var o := Single(DecodeRequestBytes(op.payload).value.signed.pkg);
      if o.PsmoOp? && k in s.devices {
        match o.psmo
        case Enable(iccid, _) => EnabledOk(s, k, Hex(iccid), true);
        case Disable(iccid) => EnabledOk(s, k, Hex(iccid), false);
        case Delete(iccid) => DroppedOk(s, k, Hex(iccid));
        case ListProfileInfo(_) => SyncedOk(s, k, v.profiles);
        case SetFallback(iccid) => FallbackOk(s, k, Hex(iccid));
        case UnsetFallback => ClearedOk(s, k);
        case _ =>
      }
    }
  }

  lemma {:induction false} DroppedOk(s: State, k: Key, iccid: Text)
    requires ProfilesOk(s)
    ensures ProfilesOk(s.(records := s.records.(profiles := s.records.profiles - {Slot(k, iccid)})))
  {
  }

  lemma {:induction false} SameProfiles(s: State)
    requires ProfilesOk(s)
    ensures forall r: Records :: r.profiles == s.records.profiles ==> ProfilesOk(s.(records := r))
  {
  }

  /** Inv reads the numbering, the operations, their results and the profiles. */
  lemma {:induction false} InvWith(s: State, t: State)
    requires Inv(s) && ProfilesOk(t)
    requires t.devices == s.devices && t.operations == s.operations && t.results == s.results && t.nextID == s.nextID
    ensures Inv(t)
  {
    hide OpsOk, NoDuplicates, NoGaps, ProfilesOk;
    SameQueues(s, t);
  }

  lemma {:induction false} ProfilesWith(s: State, t: State)
    requires ProfilesOk(s) && t.devices == s.devices && t.records == s.records
    ensures ProfilesOk(t)
  {
  }

  /** The three writes of an accepted upload, apart. */
  ghost predicate Wrote(t: State, x: State, k: Key, u: Upload, op: Operation, v: Verdict) {
    && x.devices == t.devices && x.operations == t.operations && x.results == t.results && x.nextID == t.nextID
    && var (r, e) := EffectOf(k in t.devices, t.records, k, op, v);
       && x.records == r
       && x.notifications == if e.Applied? then StoreList(k in t.devices, t.notifications, k, u.notifications).0
          else t.notifications
  }

  lemma {:induction false} CarriedWrote(s: State, tenantID: Text, eid: Text, u: Upload, op: Operation, v: Verdict)
    requires ResultRecorded(s, tenantID, ResultOf(eid, op, v, u)).1
    ensures Wrote(ResultRecorded(s, tenantID, ResultOf(eid, op, v, u)).0, Carried(s, tenantID, eid, u, op, v).0,
            KeyOf(tenantID, eid), u, op, v)
  {
    hide ResultRecorded, EffectOf, StoreList, Merged, ResultOf, KeyOf;
    var k, t := KeyOf(tenantID, eid), ResultRecorded(s, tenantID, ResultOf(eid, op, v, u)).0;
    var x := Carried(s, tenantID, eid, u, op, v).0;
    var (r, e) := EffectOf(k in t.devices, t.records, k, op, v);
    var notes := StoreList(k in t.devices, t.notifications, k, u.notifications).0;
    match e
    case Unknown => assert x == t.(records := r);
    case Fault => assert x == t.(records := r);
    case Applied => assert x == t.(records := r, notifications := notes);
  }

  lemma {:induction false} CarriedInv(s: State, tenantID: Text, eid: Text, u: Upload, op: Operation, v: Verdict)
    requires Inv(s)
    ensures Inv(Carried(s, tenantID, eid, u, op, v).0)
  {
    var r := ResultOf(eid, op, v, u);
    RecordInv(s, tenantID, r);
    if ResultRecorded(s, tenantID, r).1 {
      var t, x := ResultRecorded(s, tenantID, r).0, Carried(s, tenantID, eid, u, op, v).0;
      CarriedWrote(s, tenantID, eid, u, op, v);
      var k := KeyOf(tenantID, eid);
      hide ResultRecorded, Carried, EffectOf, ResultOf, KeyOf, OpsOk, NoDuplicates, NoGaps, CountersOk, ProfilesOk;
      EffectProfiles(t, k, op, v);
      ProfilesWith(t.(records := EffectOf(k in t.devices, t.records, k, op, v).0), x);
      InvWith(t, x);
    }
  }

  lemma {:induction false} WithStatusSigned(q: seq<Operation>, n: int, status: Status)
    requires SignedQueue(q)
    ensures SignedQueue(WithStatus(q, n, status))
  {
    hide DecodeRequestBytes, PackageOk, PackageFits;
    var p := WithStatus(q, n, status);
    forall i | 0 <= i < |p|
      ensures p[i].kind == q[i].kind && p[i].payload == q[i].payload && (SignedOp(q[i]) ==> SignedOp(p[i]))
              && CounterOf(p[i]) == CounterOf(q[i]) {
    }
    hide SignedOp, CounterOf, WithStatus;
  }

  /** An accepted upload moves one operation of the device and no other. */
  lemma {:induction false} CarriedQueue(s: State, tenantID: Text, eid: Text, u: Upload, op: Operation, v: Verdict)
    requires Inv(s) && op in QueueOf(s, KeyOf(tenantID, eid))
    ensures ResultRecorded(s, tenantID, ResultOf(eid, op, v, u)).1
    ensures Inv(Carried(s, tenantID, eid, u, op, v).0)
    ensures forall k :: QueueOf(Carried(s, tenantID, eid, u, op, v).0, k) ==
                        if k == KeyOf(tenantID, eid) then WithStatus(QueueOf(s, k), op.sequenceNumber, StatusFor(v))
                        else QueueOf(s, k)
  {
    var r, k := ResultOf(eid, op, v, u), KeyOf(tenantID, eid);
    MemberStored(s, k, op);
    assert Addressed(s, Tenant(tenantID), r) == Some(r);
    assert ResultRecorded(s, tenantID, r).1;
    CarriedInv(s, tenantID, eid, u, op, v);
    CarriedWrote(s, tenantID, eid, u, op, v);
    var t, x := ResultRecorded(s, tenantID, r).0, Carried(s, tenantID, eid, u, op, v).0;
    hide Carried, EffectOf, Inv, QueueOf, ResultRecorded, WithStatus;
    forall j
      ensures QueueOf(x, j) == if j == k then WithStatus(QueueOf(s, j), op.sequenceNumber, StatusFor(v))
              else QueueOf(s, j) {
      QueueRecord(s, tenantID, r, j);
      QueueFrame(t, x, j);
    }
  }

  lemma {:induction false} MemberStored(s: State, k: Key, op: Operation)
    requires Inv(s) && op in QueueOf(s, k)
    ensures op.id in s.operations && s.operations[op.id] == Stored(k.tenant, op) && op.eid == k.eid && k in s.devices
            && op.id != 0
    ensures 1 <= op.sequenceNumber <= |QueueOf(s, k)| && QueueOf(s, k)[op.sequenceNumber - 1] == op
  {
    var q := QueueOf(s, k);
    var i :| 0 <= i < |q| && q[i] == op;
    QueueElement(s, k, i);
    assert OpOk(s, op.id);
  }

  // ---- the second delivery ----

  lemma {:induction false} EffectAgain(known: bool, r: Records, k: Key, op: Operation, v: Verdict, status: Status)
    requires SignedOp(op)
    ensures EffectOf(known, EffectOf(known, r, k, op, v).0, k, op.(status := status), v) == EffectOf(known, r, k, op, v)
  {
    hide DecodeRequestBytes, PackageEffect, PackageOk, PackageFits;
    if StatusFor(v) == Done {
      EffectTwice(known, r, k, DecodeRequestBytes(op.payload).value.signed.pkg, v);
    }
  }

  lemma {:induction false} CarriedAgain(
    s: State, tenantID: Text, eid: Text, u: Upload, op: Operation, v: Verdict, e: Effect
  )
    requires var k := KeyOf(tenantID, eid);
             && ResultRecorded(s, tenantID, ResultOf(eid, op, v, u)) == (s, true)
             && EffectOf(k in s.devices, s.records, k, op, v) == (s.records, e)
             && (e.Applied? ==> StoreList(k in s.devices, s.notifications, k, u.notifications).0 == s.notifications)
    ensures Carried(s, tenantID, eid, u, op, v).0 == s
  {
    hide ResultRecorded, EffectOf, StoreList, Merged, ResultOf, KeyOf;
  }

  lemma {:induction false} CarryTwice(s: State, tenantID: Text, eid: Text, u: Upload, op: Operation, v: Verdict)
    requires Inv(s) && op in QueueOf(s, KeyOf(tenantID, eid)) && SignedOp(op)
    ensures var x := Carried(s, tenantID, eid, u, op, v).0;
            Carried(x, tenantID, eid, u, op.(status := StatusFor(v)), v).0 == x
  {
    hide SignedOp;
    var r, k, again := ResultOf(eid, op, v, u), KeyOf(tenantID, eid), op.(status := StatusFor(v));
    assert ResultOf(eid, again, v, u) == r && r.operationID == op.id;
    hide ResultOf;
    MemberStored(s, k, op);
    CarriedQueue(s, tenantID, eid, u, op, v);
    CarriedWrote(s, tenantID, eid, u, op, v);
    var t, x := ResultRecorded(s, tenantID, r).0, Carried(s, tenantID, eid, u, op, v).0;
    hide Carried, ResultRecorded, Inv, QueueOf, EffectOf, StoreList, KeyOf;
    RecordTwice(s, x, tenantID, r);
    var e := EffectOf(k in t.devices, t.records, k, op, v).1;
    EffectAgain(k in t.devices, t.records, k, op, v, StatusFor(v));
    StoreTwice(k in t.devices, t.notifications, k, u.notifications);
    CarriedAgain(x, tenantID, eid, u, again, v, e);
  }

  /** A signed result or error. */
  predicate SignedUpload(u: Upload) { !u.result.ErrorUnsigned? }

  function EimIdOf(u: Upload): (r: Text)
    requires SignedUpload(u)
  {
    if u.result.ResultSigned? then u.result.data.eimID else u.result.error.eimID
  }

  function CounterIn(u: Upload): (r: Int64)
    requires SignedUpload(u)
  {
    if u.result.ResultSigned? then u.result.data.counter else u.result.error.counter
  }

  function TransactionOf(u: Upload): (r: Text)
    requires SignedUpload(u)
  {
    TextBytes(if u.result.ResultSigned? then u.result.data.transactionID else u.result.error.transactionID)
  }

  /** The result object encodes and parses back, as every object that came off the wire does. */
  predicate OnWire(u: Upload) {
    ParseOne(Write(u.resultTlv)) == Some(u.resultTlv) && R.DecodeResult(u.resultTlv) == Some(u.result)
  }

  /** The operation found again, if any, is the same one with its new status; beyond the window it is not found. */
  lemma {:induction false} FoundAgain(s: State, x: State, k: Key, u: Upload, op: Operation, status: Status)
    requires Inv(s) && Inv(x) && SignedUpload(u) && CounterIn(u) != 0 && SignedQueue(QueueOf(s, k))
    requires MatchResult(s, k, u.result) == Found(op) && op in QueueOf(s, k)
    requires QueueOf(x, k) == WithStatus(QueueOf(s, k), op.sequenceNumber, status)
    ensures MatchResult(x, k, u.result) in {NoMatch, Found(op.(status := status))}
    ensures |QueueOf(s, k)| <= WINDOW ==> MatchResult(x, k, u.result).Found?
  {
    hide Inv, QueueOf, SignedQueue, Correlated, Correlate, WithStatus, MatchResult, EimIdOf, TransactionOf;
    var a, b, c := EimIdOf(u), CounterIn(u), TransactionOf(u);
    var q, p, again := QueueOf(s, k), QueueOf(x, k), op.(status := status);
    MatchIsCorrelate(s, k, u);
    MatchIsCorrelate(x, k, u);
    CorrelateSound(s, k, a, b, c);
    WithStatusSigned(q, op.sequenceNumber, status);
    CorrelateSound(x, k, a, b, c);
    StatusKeepsCorrelation(s, k, op, status, a, b, c);
    var m := MatchResult(x, k, u.result);
    if m.Found? { OneCorrelated(p, a, b, c, m.op, again); }
    if |q| <= WINDOW {
      WithStatusSize(q, op.sequenceNumber, status);
      CorrelateExact(x, k, a, b, c);
    }
  }

  lemma {:induction false} MatchIsCorrelate(s: State, k: Key, u: Upload)
    requires Inv(s) && SignedUpload(u)
    ensures MatchResult(s, k, u.result) == Correlate(s, k, EimIdOf(u), CounterIn(u), TransactionOf(u))
  {
    hide Inv, Correlate;
  }

  lemma {:induction false} StatusKeepsCorrelation(
    s: State, k: Key, op: Operation, status: Status, eimID: Text, counter: Int64, tx: Text
  )
    requires Inv(s) && op in QueueOf(s, k) && Correlated(op, eimID, counter, tx)
    ensures var again := op.(status := status);
            again in WithStatus(QueueOf(s, k), op.sequenceNumber, status) && Correlated(again, eimID, counter, tx)
  {
    hide Inv, QueueOf, DecodeRequestBytes, Correlates;
    MemberStored(s, k, op);
    assert WithStatus(QueueOf(s, k), op.sequenceNumber, status)[op.sequenceNumber - 1] == op.(status := status);
  }

  lemma {:induction false} WithStatusSize(q: seq<Operation>, n: int, status: Status)
    ensures |WithStatus(q, n, status)| == |q|
  {
  }

  lemma {:induction false} DecidedFound(s: State, k: Key, u: Upload, verify: Verifier)
    requires Inv(s) && SignedUpload(u) && SignedQueue(QueueOf(s, k))
    ensures var d := Decide(s, k, u, verify);
            d.Accept? ==> && MatchResult(s, k, u.result) == Found(d.op) && d.op in QueueOf(s, k) && SignedOp(d.op)
                          && d.v == Judge(s.records.eims, k, d.op, Write(u.resultTlv), verify)
  {
    CorrelateSound(s, k, EimIdOf(u), CounterIn(u), TransactionOf(u));
    hide SignedOp, Judge, Inv, QueueOf, Correlate, DistinctCounters;
    var d := Decide(s, k, u, verify);
    if d.Accept? {
      assert Correlated(d.op, EimIdOf(u), CounterIn(u), TransactionOf(u));
      assert d.op.kind == EuiccPackageKind by { hide DecodeRequestBytes, Correlates; }
    }
  }

  /** A signed result with counter 0 is refused: no request carries that counter. */
  lemma {:induction false} ZeroCounterRejected(eims: Eims, k: Key, op: Operation, u: Upload, verify: Verifier)
    requires SignedUpload(u) && OnWire(u) && SignedOp(op) && CounterIn(u) == 0
    ensures Judge(eims, k, op, Write(u.resultTlv), verify).Rejected?
  {
    hide DecodeRequestBytes, TokenFor, OperationVerdict, R.DecodeResult, ParseOne, Write, SignatureInput;
  }

  /** The verdict on the second delivery is the same, unless the changed association token refuses it. */
  lemma {:induction false} JudgedAgain(
    a: Eims, b: Eims, k: Key, op: Operation, data: seq<Octet>, verify: Verifier, status: Status
  )
    ensures var v, w := Judge(a, k, op, data, verify), Judge(b, k, op.(status := status), data, verify);
            v.Rejected? || w.Rejected? || v == w
  {
    hide DecodeRequestBytes, TokenFor, PackageVerdict;
    match DecodeRequestBytes(op.payload)
    case None =>
    case Some(request) =>
      var x, y := TokenFor(a, k, request.signed.eimID), TokenFor(b, k, request.signed.eimID);
      if x.Some? && y.Some? { VerdictIsStable(request.signed, data, x.value, y.value, verify); }
  }

  /**
   Handling the same signed result again, with nothing in between, leaves the whole store
   as the first handling left it, whatever the operation, the number of operations and the
   answers.
   */
  lemma {:induction false} RedeliveryIsHarmless(s: State, tenantID: Text, eid: Text, t: Tlv, verify: Verifier)
    requires Inv(s) && SignedQueue(QueueOf(s, KeyOf(tenantID, eid)))
    requires DecodeUpload(t).Some? ==> Redeliverable(DecodeUpload(t).value)
    ensures var x := Provided(s, tenantID, eid, t, verify).0;
            Inv(x) && Provided(x, tenantID, eid, t, verify).0 == x
  {
    hide DecodeUpload, Carried, Decide, SignedQueue, QueueOf, Inv, Judge, MatchResult, SignedOp, OnWire;
    if DecodeUpload(t).Some? {
      var u, k := DecodeUpload(t).value, KeyOf(tenantID, eid);
      var d := Decide(s, k, u, verify);
      if d.Accept? {
        DecidedFound(s, k, u, verify);
        if CounterIn(u) == 0 { ZeroCounterRejected(s.records.eims, k, d.op, u, verify); }
        AcceptedAgain(s, tenantID, eid, u, verify, d.op, d.v);
      }
    }
  }

  /** A signed result or error; one with counter 0 is taken off the wire. */
  predicate Redeliverable(u: Upload) { SignedUpload(u) && (CounterIn(u) == 0 ==> OnWire(u)) }

  lemma {:induction false} AcceptedAgain(
    s: State, tenantID: Text, eid: Text, u: Upload, verify: Verifier, op: Operation, v: Verdict
  )
    requires var k := KeyOf(tenantID, eid);
             && Inv(s) && SignedUpload(u) && CounterIn(u) != 0 && SignedQueue(QueueOf(s, k))
             && op in QueueOf(s, k) && SignedOp(op) && MatchResult(s, k, u.result) == Found(op)
             && v == Judge(s.records.eims, k, op, Write(u.resultTlv), verify) && !v.Rejected?
    ensures var x := Carried(s, tenantID, eid, u, op, v).0;
            && Inv(x)
            && match Decide(x, KeyOf(tenantID, eid), u, verify)
               case Refuse(_) => true
               case Accept(again, w) => Carried(x, tenantID, eid, u, again, w).0 == x
  {
    var k := KeyOf(tenantID, eid);
    hide Carried, SignedUpload, SignedQueue, QueueOf, Inv, Judge, MatchResult, SignedOp, KeyOf, WithStatus;
    CarriedQueue(s, tenantID, eid, u, op, v);
    var x, status := Carried(s, tenantID, eid, u, op, v).0, StatusFor(v);
    FoundAgain(s, x, k, u, op, status);
    JudgedAgain(s.records.eims, x.records.eims, k, op, Write(u.resultTlv), verify, status);
    CarryTwice(s, tenantID, eid, u, op, v);
  }
}
