/**
 How the eIM handles an uploaded eUICC package result (esipa/handler.go): correlation
 with the queue, verification, recording, effects, notifications and acknowledgement,
 as functions of the store's contents.
 */
module Handler {
  import opened Octets
  import opened Tlv
  import opened Tags
  import opened EuiccPackage
  import opened Outcome
  import opened StoreState
  import opened Queue
  import opened Effects
  import opened Notifications
  import R = PackageResult

  // ---- correlation ----

  const WINDOW := 10000
  const POLL_WINDOW := 100

  /** An empty eIM ID or transaction ID and a zero counter match anything. */
  predicate Correlates(signed: Signed, eimID: Text, counter: Int64, tx: Text) {
    && (eimID == [] || signed.eimID == eimID)
    && (counter == 0 || signed.counter == counter)
    && (tx == [] || TextBytes(signed.transactionID) == tx)
  }

  datatype Match = Found(op: Operation) | NoMatch | MatchFault

  /** firstMatchingEuiccPackage: a payload that does not decode ends the search. */
  function FirstMatch(ops: seq<Operation>, eimID: Text, counter: Int64, tx: Text): (r: Match) {
    if ops == [] then NoMatch
    else if ops[0].kind != EuiccPackageKind then FirstMatch(ops[1..], eimID, counter, tx)
    else
      match DecodeRequestBytes(ops[0].payload)
      case None => MatchFault
      case Some(request) =>
        if Correlates(request.signed, eimID, counter, tx) then Found(ops[0])
        else FirstMatch(ops[1..], eimID, counter, tx)
  }

  /** firstPendingEuiccPackageOperation, on the pending list. */
  function FirstPackage(ops: seq<Operation>): (r: Match)
    ensures !r.MatchFault?
    ensures r.Found? ==> exists i :: 0 <= i < |ops| && r.op == ops[i] && ops[i].kind == EuiccPackageKind
                                     && forall j :: 0 <= j < i ==> ops[j].kind != EuiccPackageKind
    ensures r.NoMatch? ==> forall o :: o in ops ==> o.kind != EuiccPackageKind
  {
    if ops == [] then NoMatch else if ops[0].kind == EuiccPackageKind then Found(ops[0]) else FirstPackage(ops[1..])
  }

  /** matchPendingEuiccPackageByCorrelation: the pending operations first, then the finished ones. */
  ghost function Correlate(s: State, k: Key, eimID: Text, counter: Int64, tx: Text): (r: Match)
    requires Inv(s)
  {
    var pending := FirstMatch(Fetched(s, k, WINDOW), eimID, counter, tx);
    if !pending.NoMatch? then pending
    else if tx == [] && eimID == [] && counter == 0 then NoMatch
    else FirstMatch(Listed(s, k, WINDOW), eimID, counter, tx)
  }

  /** matchingEUICCPackageOperations. */
  ghost function MatchResult(s: State, k: Key, result: R.Result): (r: Match)
    requires Inv(s)
  {
    match result
    case ResultSigned(d, _) => Correlate(s, k, d.eimID, d.counter, TextBytes(d.transactionID))
    case ErrorSigned(e, _) => Correlate(s, k, e.eimID, e.counter, TextBytes(e.transactionID))
    case ErrorUnsigned(u) =>
      var tx := TextBytes(u.transactionID);
      var m := if u.eimID != [] || tx != [] then Correlate(s, k, u.eimID, 0, tx) else NoMatch;
      if !m.NoMatch? then m else FirstPackage(Fetched(s, k, WINDOW))
  }

  /** selectOperationForGetEimPackage: the first eUICC package, else the first pending operation. */
  ghost function Selected(s: State, k: Key): (r: Option<Operation>)
    requires Inv(s)
  {
    var pending := Fetched(s, k, POLL_WINDOW);
    if pending == [] then None
    else
      var m := FirstPackage(pending);
      if m.Found? then Some(m.op) else Some(pending[0])
  }

  // ---- the queue of signed packages ----

  /** The payload is a request that decodes to a proper package, as Sign makes them. */
  ghost predicate SignedOp(o: Operation) {
    match DecodeRequestBytes(o.payload)
    case None => false
    case Some(request) =>
      && request.signed.counter >= 1 && request == NormalRequest(request)
      && PackageOk(request.signed.pkg) && PackageFits(request.signed.pkg)
  }

  function CounterOf(o: Operation): (r: int) {
    match DecodeRequestBytes(o.payload)
    case None => 0
    case Some(request) => request.signed.counter
  }

  predicate Correlated(o: Operation, eimID: Text, counter: Int64, tx: Text) {
    o.kind == EuiccPackageKind
    && match DecodeRequestBytes(o.payload)
       case None => false
       case Some(request) => Correlates(request.signed, eimID, counter, tx)
  }

  ghost predicate AllSigned(q: seq<Operation>) {
    forall i :: 0 <= i < |q| && q[i].kind == EuiccPackageKind ==> SignedOp(q[i])
  }

  ghost predicate DistinctCounters(q: seq<Operation>) {
    forall i, j :: 0 <= i < j < |q| && q[i].kind == EuiccPackageKind && q[j].kind == EuiccPackageKind
                   ==> CounterOf(q[i]) != CounterOf(q[j])
  }

  /** Every queued package comes from Sign, and no counter is used twice. */
  ghost predicate SignedQueue(q: seq<Operation>) { AllSigned(q) && DistinctCounters(q) }

  lemma {:induction false} FirstMatchIn(ops: seq<Operation>, eimID: Text, counter: Int64, tx: Text)
    requires forall o :: o in ops && o.kind == EuiccPackageKind ==> SignedOp(o)
    ensures var m := FirstMatch(ops, eimID, counter, tx);
            && !m.MatchFault?
            && (m.Found? ==> m.op in ops && Correlated(m.op, eimID, counter, tx))
            && (m.NoMatch? ==> forall o :: o in ops ==> !Correlated(o, eimID, counter, tx))
  {
    hide Correlates, DecodeRequestBytes, PackageOk, PackageFits;
    if ops != [] {
      assert ops == [ops[0]] + ops[1..];
      assert ops[0].kind == EuiccPackageKind ==> SignedOp(ops[0]);
      FirstMatchIn(ops[1..], eimID, counter, tx);
    }
  }

  lemma {:induction false} OneCorrelated(
    q: seq<Operation>, eimID: Text, counter: Int64, tx: Text, a: Operation, b: Operation
  )
    requires SignedQueue(q) && counter != 0 && a in q && b in q
    requires Correlated(a, eimID, counter, tx) && Correlated(b, eimID, counter, tx)
    ensures a == b
  {
    hide SignedOp, DecodeRequestBytes;
    assert CounterOf(a) == counter && CounterOf(b) == counter;
    hide CounterOf, Correlated;
    var i, j :| 0 <= i < |q| && 0 <= j < |q| && q[i] == a && q[j] == b;
  }

  /** What the matcher answers: the one operation that correlates, or that there is none. */
  ghost predicate Exact(m: Match, q: seq<Operation>, eimID: Text, counter: Int64, tx: Text) {
    match m
    case MatchFault => false
    case NoMatch => forall o :: o in q ==> !Correlated(o, eimID, counter, tx)
    case Found(op) =>
      op in q && Correlated(op, eimID, counter, tx) && forall o :: o in q && Correlated(o, eimID, counter, tx) ==>
        o == op
  }

  /**
   While a device has at most 10000 operations, all packages from Sign, a signed result
   matches at most one of them and the matcher finds it, pending or finished.
   */
  lemma {:induction false} CorrelateExact(s: State, k: Key, eimID: Text, counter: Int64, tx: Text)
    requires Inv(s) && SignedQueue(QueueOf(s, k)) && |QueueOf(s, k)| <= WINDOW && counter != 0
    ensures Exact(Correlate(s, k, eimID, counter, tx), QueueOf(s, k), eimID, counter, tx)
  {
    var q := QueueOf(s, k);
    PendingMembers(q);
    PendingShorter(q);
    hide Inv, QueueOf, PendingOf, FirstMatch, SignedOp, Correlated, DistinctCounters;
    assert Fetched(s, k, WINDOW) == PendingOf(q) && Listed(s, k, WINDOW) == q;
    FirstMatchIn(PendingOf(q), eimID, counter, tx);
    FirstMatchIn(q, eimID, counter, tx);
    var m := Correlate(s, k, eimID, counter, tx);
    if m.Found? {
      forall o | o in q && Correlated(o, eimID, counter, tx) ensures o == m.op {
        OneCorrelated(q, eimID, counter, tx, o, m.op);
      }
    }
  }

  lemma {:induction false} FetchedMember(s: State, k: Key, limit: int)
    requires Inv(s)
    ensures forall o :: o in Fetched(s, k, limit) ==> o in QueueOf(s, k) && o.status == Pending
    ensures forall o :: o in Listed(s, k, limit) ==> o in QueueOf(s, k)
  {
    PendingMembers(QueueOf(s, k));
    hide Inv, QueueOf, PendingOf;
  }

  /** What the matcher finds correlates with the result, however many operations the device has. */
  lemma {:induction false} CorrelateSound(s: State, k: Key, eimID: Text, counter: Int64, tx: Text)
    requires Inv(s) && SignedQueue(QueueOf(s, k))
    ensures var m := Correlate(s, k, eimID, counter, tx);
            !m.MatchFault? && (m.Found? ==> m.op in QueueOf(s, k) && Correlated(m.op, eimID, counter, tx))
  {
    hide Inv, QueueOf, Fetched, Listed, FirstMatch, SignedOp, Correlated, DistinctCounters;
    FetchedMember(s, k, WINDOW);
    FirstMatchIn(Fetched(s, k, WINDOW), eimID, counter, tx);
    FirstMatchIn(Listed(s, k, WINDOW), eimID, counter, tx);
  }

  /** A pending operation within the window is found, however many operations the device has. */
  lemma {:induction false} CorrelateFetched(s: State, k: Key, eimID: Text, counter: Int64, tx: Text, op: Operation)
    requires Inv(s) && SignedQueue(QueueOf(s, k)) && counter != 0
    requires op in Fetched(s, k, WINDOW) && Correlated(op, eimID, counter, tx)
    ensures Correlate(s, k, eimID, counter, tx) == Found(op)
  {
    hide Inv, QueueOf, Fetched, Listed, FirstMatch, SignedOp, Correlated, DistinctCounters;
    FetchedMember(s, k, WINDOW);
    FirstMatchIn(Fetched(s, k, WINDOW), eimID, counter, tx);
    OneCorrelated(QueueOf(s, k), eimID, counter, tx, op, Correlate(s, k, eimID, counter, tx).op);
  }

  lemma {:induction false} PendingShorter(q: seq<Operation>)
    ensures |PendingOf(q)| <= |q|
  {
    if q != [] { PendingShorter(q[..|q| - 1]); }
  }

  // ---- verification ----

  /** The association token, then the verdict; NotFound fails the operation without an effect. */
  function Judge(eims: Eims, k: Key, op: Operation, data: seq<Octet>, verify: Verifier): (r: Verdict) {
    match DecodeRequestBytes(op.payload)
    case None => Rejected
    case Some(request) =>
      match TokenFor(eims, k, request.signed.eimID)
      case None => Rejected
      case Some(token) => PackageVerdict(request.signed, data, token, verify)
  }

  function StatusFor(v: Verdict): (r: Status) { if v.Ruled? && v.ok then Done else Failed }

  datatype Reply = Ack(numbers: seq<int>) | EidNotFound | Faulted

  /** The parts of an upload: the result object and the notifications beside it. */
  datatype Upload = Upload(tlv: Tlv, resultTlv: Tlv, result: R.Result, notifications: Option<Tlv>)

  function DecodeUpload(t: Tlv): (r: Option<Upload>) {
    var resultTlv :- if t.tag == SEQUENCE then First(t, EUICC_PACKAGE) else Some(t);
    var result :- R.DecodeResult(resultTlv);
    Some(Upload(t, resultTlv, result, if t.tag == SEQUENCE then First(t, C0) else None))
  }

  /** packageResultAckSequences. */
  function ResultNumbers(result: R.Result): (r: seq<int>) {
    if result.ResultSigned? && result.data.seqNumber != 0 then [result.data.seqNumber] else []
  }

  datatype Decision = Refuse(reply: Reply) | Accept(op: Operation, v: Verdict)

  /** Everything before the first write. */
  ghost function Decide(s: State, k: Key, u: Upload, verify: Verifier): (r: Decision)
    requires Inv(s)
    ensures r.Accept? ==> !r.v.Rejected?
  {
    match MatchResult(s, k, u.result)
    case MatchFault => Refuse(Faulted)
    case NoMatch => Refuse(EidNotFound)
    case Found(op) =>
      var v := Judge(s.records.eims, k, op, Write(u.resultTlv), verify);
      if v.Rejected? then Refuse(Faulted) else Accept(op, v)
  }

  function ResultOf(eid: Text, op: Operation, v: Verdict, u: Upload): (r: Recorded) {
    Recorded(eid, op.id, op.sequenceNumber, StatusFor(v), Write(u.tlv))
  }

  /** The effect of an operation that is done. */
  function EffectOf(known: bool, r: Records, k: Key, op: Operation, v: Verdict): (a: (Records, Effect)) {
    if StatusFor(v) != Done then (r, Applied)
    else
      match DecodeRequestBytes(op.payload)
      case None => (r, Fault)
      case Some(request) => PackageEffect(known, r, k, request.signed.pkg, v)
  }

  /** The writes: the result, the effect, the notifications; an error stops them where it occurs. */
  function Carried(s: State, tenantID: Text, eid: Text, u: Upload, op: Operation, v: Verdict): (r: (State, Reply)) {
    var k := KeyOf(tenantID, eid);
    var (t, ok) := ResultRecorded(s, tenantID, ResultOf(eid, op, v, u));
    if !ok then (t, EidNotFound)
    else
      var (records, effect) := EffectOf(k in t.devices, t.records, k, op, v);
      var w := t.(records := records);
      if effect.Unknown? then (w, EidNotFound)
      else if effect.Fault? then (w, Faulted)
      else
        var (notes, noted) := StoreList(k in w.devices, w.notifications, k, u.notifications);
        var x := w.(notifications := notes);
        match noted
        case NotKnown => (x, EidNotFound)
        case Malformed => (x, Faulted)
        case Numbers(numbers) => (x, Ack(Merged(Merged([], ResultNumbers(u.result)), numbers)))
  }

  /** recordEimPackageResult for a result that is an eUICC package result, with or without notifications. */
  ghost function Provided(s: State, tenantID: Text, eid: Text, t: Tlv, verify: Verifier): (r: (State, Reply))
    requires Inv(s)
  {
    match DecodeUpload(t)
    case None => (s, Faulted)
    case Some(u) =>
      match Decide(s, KeyOf(tenantID, eid), u, verify)
      case Refuse(reply) => (s, reply)
      case Accept(op, v) => Carried(s, tenantID, eid, u, op, v)
  }
}
