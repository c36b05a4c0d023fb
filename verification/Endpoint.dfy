/** esipa/handler.go step by step, against the functions of module Handler. */
module Endpoint {
  import opened Octets
  import opened Tlv
  import opened EuiccPackage
  import opened Outcome
  import opened StoreState
  import opened Queue
  import opened Effects
  import opened Notifications
  import opened Handler
  import Apply
  import R = PackageResult
  import S = Store

  method FirstMatchingEuiccPackage(ops: seq<Operation>, eimID: Text, counter: Int64, tx: Text) returns (r: Match)
    ensures r == FirstMatch(ops, eimID, counter, tx)
  {
    hide DecodeRequestBytes, Correlates;
    assert ops[0..] == ops;
    for i := 0 to |ops|
      invariant FirstMatch(ops, eimID, counter, tx) == FirstMatch(ops[i..], eimID, counter, tx)
    {
      assert ops[i..][1..] == ops[i + 1..];
      if ops[i].kind != EuiccPackageKind { continue; }
      var request := DecodeRequestBytes(ops[i].payload);
      if request.None? { return MatchFault; }
      if Correlates(request.value.signed, eimID, counter, tx) { return Found(ops[i]); }
    }
    return NoMatch;
  }

  method FirstEuiccPackage(ops: seq<Operation>) returns (r: Match)
    ensures r == FirstPackage(ops)
  {
    assert ops[0..] == ops;
    for i := 0 to |ops|
      invariant FirstPackage(ops) == FirstPackage(ops[i..])
    {
      assert ops[i..][1..] == ops[i + 1..];
      if ops[i].kind == EuiccPackageKind { return Found(ops[i]); }
    }
    return NoMatch;
  }

  method MatchByCorrelation(
    store: S.Store, tenantID: Text, eid: Text, eimID: Text, counter: Int64, tx: Text
  ) returns (r: Match)
    requires Inv(store.View())
    ensures r == Correlate(store.View(), KeyOf(tenantID, eid), eimID, counter, tx)
  {
    hide FirstMatch, Fetched, Listed;
    var pending := store.FetchPendingOperations(tenantID, eid, WINDOW);
    r := FirstMatchingEuiccPackage(pending, eimID, counter, tx);
    if !r.NoMatch? { return; }
    if tx == [] && eimID == [] && counter == 0 { return NoMatch; }
    var all := store.ListOperations(tenantID, eid, WINDOW);
    r := FirstMatchingEuiccPackage(all, eimID, counter, tx);
  }

  method MatchingOperations(store: S.Store, tenantID: Text, eid: Text, result: R.Result) returns (r: Match)
    requires Inv(store.View())
    ensures r == MatchResult(store.View(), KeyOf(tenantID, eid), result)
  {
    hide Correlate, Fetched, FirstPackage;
    match result
    case ResultSigned(d, _) =>
      r := MatchByCorrelation(store, tenantID, eid, d.eimID, d.counter, TextBytes(d.transactionID));
    case ErrorSigned(e, _) =>
      r := MatchByCorrelation(store, tenantID, eid, e.eimID, e.counter, TextBytes(e.transactionID));
    case ErrorUnsigned(u) =>
      var tx := TextBytes(u.transactionID);
      if u.eimID != [] || tx != [] {
        r := MatchByCorrelation(store, tenantID, eid, u.eimID, 0, tx);
        if !r.NoMatch? { return; }
      }
      var pending := store.FetchPendingOperations(tenantID, eid, WINDOW);
      r := FirstEuiccPackage(pending);
  }

  method SelectOperation(store: S.Store, tenantID: Text, eid: Text) returns (r: Option<Operation>)
    requires Inv(store.View())
    ensures r == Selected(store.View(), KeyOf(tenantID, eid))
  {
    hide Fetched;
    var pending := store.FetchPendingOperations(tenantID, eid, POLL_WINDOW);
    if |pending| == 0 { return None; }
    var m := FirstEuiccPackage(pending);
    if m.Found? { return Some(m.op); }
    return Some(pending[0]);
  }

  /** verifiedOperationResult; Rejected stands for every error but a missing result arm. */
  method VerifiedOperationResult(
    store: S.Store, tenantID: Text, eid: Text, op: Operation, data: seq<Octet>, verify: Verifier
  )
    returns (v: Verdict)
    ensures v == Judge(store.eims, KeyOf(tenantID, eid), op, data, verify)
  {
    hide DecodeRequestBytes, TokenFor, PackageVerdict;
    var request := DecodeRequestBytes(op.payload);
    if request.None? { return Rejected; }
    var token := Apply.AssociationToken(store, tenantID, eid, request.value.signed.eimID);
    if token.None? { return Rejected; }
    v := PackageVerdict(request.value.signed, data, token.value, verify);
  }

  /** recordEimPackageResult for an eUICC package result, with or without notifications beside it. */
  method RecordEimPackageResult(
    store: S.Store, tenantID: Text, eid: Text, t: Tlv, verify: Verifier
  ) returns (reply: Reply)
    requires Inv(store.View())
    modifies store
    ensures Inv(store.View())
    ensures (store.View(), reply) == Provided(old(store.View()), tenantID, eid, t, verify)
  {
    hide Inv, MatchResult, Judge, Carried, DecodeUpload;
    var upload := DecodeUpload(t);
    if upload.None? { return Faulted; }
    var u := upload.value;
    var m := MatchingOperations(store, tenantID, eid, u.result);
    match m
    case MatchFault => return Faulted;
    case NoMatch => return EidNotFound;
    case Found(op) =>
      var v := VerifiedOperationResult(store, tenantID, eid, op, Write(u.resultTlv), verify);
      if v.Rejected? { return Faulted; }
      reply := Carry(store, tenantID, eid, u, op, v);
  }

  method Carry(store: S.Store, tenantID: Text, eid: Text, u: Upload, op: Operation, v: Verdict) returns (reply: Reply)
    requires Inv(store.View())
    modifies store
    ensures Inv(store.View())
    ensures (store.View(), reply) == Carried(old(store.View()), tenantID, eid, u, op, v)
  {
    hide Inv, ResultRecorded, EffectOf, StoreList, Merged;
    ghost var k := KeyOf(tenantID, eid);
    var ok := store.RecordEuiccPackageResult(tenantID,
      Recorded(eid, op.id, op.sequenceNumber, StatusFor(v), Write(u.tlv)));
    if !ok { return EidNotFound; }
    ghost var t := store.View();
    var effect := ApplyOperation(store, tenantID, eid, op, v);
    ghost var w := store.View();
    assert w == t.(records := EffectOf(k in t.devices, t.records, k, op, v).0);
    if effect.Unknown? { return EidNotFound; }
    if effect.Fault? { return Faulted; }
    var numbers := AppendAckSequences([], ResultNumbers(u.result));
    var noted := RecordNotifications(store, tenantID, eid, u.notifications);
    assert store.View() == w.(notifications := StoreList(k in w.devices, w.notifications, k, u.notifications).0);
    match noted
    case NotKnown => reply := EidNotFound;
    case Malformed => reply := Faulted;
    case Numbers(more) =>
      var all := AppendAckSequences(numbers, more);
      reply := Ack(all);
  }

  method ApplyOperation(store: S.Store, tenantID: Text, eid: Text, op: Operation, v: Verdict) returns (e: Effect)
    requires Inv(store.View())
    modifies store
    ensures Inv(store.View())
    ensures var s, k := old(store.View()), KeyOf(tenantID, eid);
            (store.View(), e) == Apply.WithEffect(s, EffectOf(k in s.devices, s.records, k, op, v))
  {
    hide Inv, PackageEffect, DecodeRequestBytes;
    if StatusFor(v) != Done { return Applied; }
    var request := DecodeRequestBytes(op.payload);
    if request.None? { return Fault; }
    e := Apply.ApplyPackageResultState(store, tenantID, eid, request.value.signed.pkg, v);
  }
}
