/**
 Signing packages and queueing them (euiccpkg/service.go), interleaved in any way with
 everything else that happens to the store: every queue stays a queue of signed packages
 with distinct counters, so results correlate with one operation.
 */
module Signing {
  import opened Octets
  import opened Tlv
  import opened EuiccPackage
  import opened Outcome
  import opened StoreState
  import opened Queue
  import opened Effects
  import opened Handler

  datatype Signer = Signer(eimID: Text, sign: seq<Octet> -> Text)

  datatype Input = Input(eidValue: Text, transactionID: Option<Text>, token: Option<Int64>, pkg: Package)

  /** What Sign makes once it has a counter and a token. */
  function SignedRequest(e: Signer, i: Input, counter: Int64, token: Option<Int64>): (r: Request) {
    var signed := Signed(e.eimID, i.eidValue, counter, i.transactionID, i.pkg);
    Request(signed, e.sign(SignatureInput(Write(SignedTlv(signed)), token)))
  }

  /** Sign: the counter is taken even when a later step fails. */
  function Sign(e: Signer, s: State, k: Key, i: Input): (r: (State, Option<Request>)) {
    if e.eimID == [] || k.eid == [] then (s, None)
    else
      var (t, counter) := CounterTaken(s, k);
      if counter.None? || counter.value >= INT64_LIMIT || counter.value < 0 then (t, None)
      else
        var token := if i.token.Some? then Some(i.token) else TokenFor(s.records.eims, k, e.eimID);
        if token.None? then (t, None)
        else
          var request := SignedRequest(e, i, counter.value, token.value);
          if Fits(RequestTlv(request)) then (t, Some(request)) else (t, None)
  }

  ghost predicate InputOk(i: Input) { PackageOk(i.pkg) && PackageFits(i.pkg) }

  // ---- what goes into the queue ----

  ghost predicate RequestOk(r: Request) {
    r.signed.counter >= 1 && PackageOk(r.signed.pkg) && PackageFits(r.signed.pkg) && Fits(RequestTlv(r))
  }

  lemma {:induction false} NormalOk(p: Package)
    requires PackageOk(p) && PackageFits(p)
    ensures PackageOk(NormalPackage(p)) && PackageFits(NormalPackage(p))
  {
    hide EcoOk, EcoFits;
    if p.Psmos? {
      forall j | 0 <= j < |p.psmos| ensures PsmoOk(NormalPackage(p).psmos[j]) { assert PsmoOk(p.psmos[j]); }
    }
  }

  /** The queued payload decodes to the signed request, so its counter is the one taken. */
  lemma {:induction false} QueuedIsSigned(r: Request, o: Operation)
    requires RequestOk(r) && o.payload == EncodeRequest(r)
    ensures SignedOp(o) && CounterOf(o) == r.signed.counter && DecodeRequestBytes(o.payload) == Some(NormalRequest(r))
  {
    hide EncodeRequest, DecodeRequestBytes, PackageOk, PackageFits, NormalPackage, Fits;
    RequestWireRoundTrip(r);
    NormalOk(r.signed.pkg);
    NormalTwice(r.signed.pkg);
  }

  lemma {:induction false} NormalTwice(p: Package)
    ensures NormalPackage(NormalPackage(p)) == NormalPackage(p)
  {
    if p.Psmos? {
      var a, b := NormalPackage(p).psmos, NormalPackage(NormalPackage(p)).psmos;
      assert forall j :: 0 <= j < |a| ==> a[j] == b[j];
    }
  }

  // ---- the world ----

  datatype Outgoing = Outgoing(k: Key, request: Request)

  /** The store, and the requests that are signed and not yet queued. */
  datatype World = World(s: State, outbox: seq<Outgoing>)

  datatype Event =
    | Other(call: Call)
    | SignPackage(k: Key, input: Input)
    | Post(index: int)

  ghost predicate EventOk(e: Event) {
    match e
    case Other(call) => !(call.Enqueue? && call.kind == EuiccPackageKind)
    case SignPackage(_, input) => InputOk(input)
    case Post(_) => true
  }

  function Without(outbox: seq<Outgoing>, i: int): (r: seq<Outgoing>)
    requires 0 <= i < |outbox|
  {
    outbox[..i] + outbox[i + 1..]
  }

  function WorldStep(signer: Signer, w: World, e: Event): (r: World) {
    match e
    case Other(call) => w.(s := Step(w.s, call))
    case SignPackage(k, input) =>
      var (s, request) := Sign(signer, w.s, k, input);
      World(s, if request.Some? then w.outbox + [Outgoing(k, request.value)] else w.outbox)
    case Post(i) =>
      if 0 <= i < |w.outbox|
      then World(Enqueued(w.s, w.outbox[i].k, EuiccPackageKind, EncodeRequest(w.outbox[i].request)).0,
        Without(w.outbox, i))
      else w
  }

  function WorldRun(signer: Signer, w: World, events: seq<Event>): (r: World)
    decreases |events|
  {
    if events == [] then w else WorldRun(signer, WorldStep(signer, w, events[0]), events[1..])
  }

  // ---- what every run keeps ----

  ghost predicate CountersBelow(q: seq<Operation>, next: int) {
    forall i :: 0 <= i < |q| && q[i].kind == EuiccPackageKind ==> CounterOf(q[i]) < next
  }

  function NextCounter(s: State, k: Key): (r: int) { if k in s.devices then s.devices[k].nextCounter else 1 }

  ghost predicate QueueOk(s: State, k: Key)
    requires Inv(s)
  {
    SignedQueue(QueueOf(s, k)) && CountersBelow(QueueOf(s, k), NextCounter(s, k))
  }

  ghost predicate OutOk(s: State, o: Outgoing) {
    o.k in s.devices && RequestOk(o.request) && o.request.signed.counter < NextCounter(s, o.k)
  }

  predicate Clash(a: Outgoing, b: Outgoing) { a.k == b.k && a.request.signed.counter == b.request.signed.counter }

  predicate Queued(q: seq<Operation>, counter: int) {
    exists i :: 0 <= i < |q| && q[i].kind == EuiccPackageKind && CounterOf(q[i]) == counter
  }

  ghost predicate Fresh(s: State, o: Outgoing)
    requires Inv(s)
  {
    !Queued(QueueOf(s, o.k), o.request.signed.counter)
  }

  ghost predicate WorldInv(w: World) {
    && Inv(w.s)
    && (forall k :: QueueOk(w.s, k))
    && (forall i :: 0 <= i < |w.outbox| ==> OutOk(w.s, w.outbox[i]) && Fresh(w.s, w.outbox[i]))
    && (forall i, j :: 0 <= i < j < |w.outbox| ==> !Clash(w.outbox[i], w.outbox[j]))
  }

  /** A step that keeps every queue and no counter goes back. */
  lemma {:induction false} KeptQueues(w: World, t: State)
    requires WorldInv(w) && Inv(t)
    requires forall k :: QueueOf(t, k) == QueueOf(w.s, k)
    requires forall k :: k in w.s.devices ==> k in t.devices && t.devices[k].nextCounter >= w.s.devices[k].nextCounter
    requires forall k :: k in t.devices && k !in w.s.devices ==> t.devices[k].nextCounter >= 1
    ensures WorldInv(World(t, w.outbox))
  {
    hide Inv, SignedQueue, QueueOf;
    forall k ensures QueueOk(t, k) {
      assert QueueOk(w.s, k);
      assert NextCounter(t, k) >= NextCounter(w.s, k);
    }
    forall i | 0 <= i < |w.outbox| ensures OutOk(t, w.outbox[i]) && Fresh(t, w.outbox[i]) {
      assert OutOk(w.s, w.outbox[i]) && Fresh(w.s, w.outbox[i]);
    }
  }

  lemma {:induction false} PlainQueue(s: State, c: Call, k: Key)
    requires Inv(s) && Plain(c)
    ensures Inv(Step(s, c)) && QueueOf(Step(s, c), k) == QueueOf(s, k)
  {
    StepInv(s, c);
    PlainStep(s, c);
    PlainDevices(s, c);
    var t := Step(s, c);
    hide Step, Inv;
    if k in s.devices || k !in t.devices {
      QueueFrame(s, t, k);
    }
  }

  /** Neither the kinds nor the payloads of a queue change with a status. */
  lemma {:induction false} WithStatusOk(q: seq<Operation>, n: int, status: Status, next: int)
    requires SignedQueue(q) && CountersBelow(q, next)
    ensures SignedQueue(WithStatus(q, n, status)) && CountersBelow(WithStatus(q, n, status), next)
    ensures forall c :: Queued(WithStatus(q, n, status), c) ==> Queued(q, c)
  {
    hide DecodeRequestBytes, PackageOk, PackageFits;
    var p := WithStatus(q, n, status);
    forall i | 0 <= i < |p|
      ensures p[i].kind == q[i].kind && (SignedOp(q[i]) ==> SignedOp(p[i])) && CounterOf(p[i]) == CounterOf(q[i]) {
    }
    hide SignedOp, CounterOf, WithStatus;
  }

  lemma {:induction false} RecordWorld(w: World, tenantID: Text, r: Recorded)
    requires WorldInv(w)
    ensures WorldInv(w.(s := ResultRecorded(w.s, tenantID, r).0))
  {
    var (t, ok) := ResultRecorded(w.s, tenantID, r);
    if ok {
      assert t.devices == w.s.devices;
      var x := Addressed(w.s, Tenant(tenantID), r).value;
      RecordInv(w.s, tenantID, r);
      hide ResultRecorded, Addressed, Inv, QueueOf, SignedQueue, CountersBelow, WithStatus, Queued;
      forall k ensures QueueOk(t, k) && forall c :: Queued(QueueOf(t, k), c) ==> Queued(QueueOf(w.s, k), c) {
        assert QueueOk(w.s, k);
        QueueRecord(w.s, tenantID, r, k);
        WithStatusOk(QueueOf(w.s, k), x.sequenceNumber, x.status, NextCounter(w.s, k));
      }
      forall i | 0 <= i < |w.outbox| ensures OutOk(t, w.outbox[i]) && Fresh(t, w.outbox[i]) {
        assert OutOk(w.s, w.outbox[i]) && Fresh(w.s, w.outbox[i]);
      }
    }
  }

  /** One more operation at the end of a queue. */
  lemma {:induction false} AppendOk(q: seq<Operation>, o: Operation, next: int)
    requires SignedQueue(q) && CountersBelow(q, next)
    requires o.kind == EuiccPackageKind ==> SignedOp(o) && CounterOf(o) < next && !Queued(q, CounterOf(o))
    ensures SignedQueue(q + [o]) && CountersBelow(q + [o], next)
    ensures forall c :: Queued(q + [o], c) <==> Queued(q, c) || (o.kind == EuiccPackageKind && CounterOf(o) == c)
  {
    hide SignedOp, CounterOf;
    var p := q + [o];
    forall c ensures Queued(p, c) <==> Queued(q, c) || (o.kind == EuiccPackageKind && CounterOf(o) == c) {
      if Queued(q, c) {
        var i :| 0 <= i < |q| && q[i].kind == EuiccPackageKind && CounterOf(q[i]) == c;
        assert p[i] == q[i];
      }
      assert p[|q|] == o;
    }
  }

  lemma {:induction false} EnqueueWorld(w: World, k: Key, kind: Kind, payload: seq<Octet>)
    requires WorldInv(w)
    requires var o := Operation(0, [], 0, kind, payload, Pending);
             kind == EuiccPackageKind ==>
               && SignedOp(o) && CounterOf(o) < NextCounter(w.s, k) && !Queued(QueueOf(w.s, k), CounterOf(o))
               && forall i :: 0 <= i < |w.outbox| ==>
                                !(w.outbox[i].k == k && w.outbox[i].request.signed.counter == CounterOf(o))
    ensures WorldInv(w.(s := Enqueued(w.s, k, kind, payload).0))
  {
    if k in w.s.devices {
      var (t, op) := Enqueued(w.s, k, kind, payload);
      EnqueueInv(w.s, k, kind, payload);
      EnqueuedParts(w.s, k, kind, payload);
      var o := op.value;
      assert SignedOp(o) == SignedOp(Operation(0, [], 0, kind, payload, Pending))
             && CounterOf(o) == CounterOf(Operation(0, [], 0, kind, payload, Pending)) by {
        hide DecodeRequestBytes;
      }
      hide Enqueued, Inv, QueueOf, SignedQueue, CountersBelow, SignedOp, CounterOf, Queued;
      forall j
        ensures QueueOk(t, j) && forall c :: Queued(QueueOf(t, j), c) ==>
                Queued(QueueOf(w.s, j), c) || (j == k && kind == EuiccPackageKind && CounterOf(o) == c) {
        assert QueueOk(w.s, j);
        QueueEnqueue(w.s, k, kind, payload, j);
        if j == k { AppendOk(QueueOf(w.s, k), o, NextCounter(w.s, k)); }
      }
      forall i | 0 <= i < |w.outbox| ensures OutOk(t, w.outbox[i]) && Fresh(t, w.outbox[i]) {
        assert OutOk(w.s, w.outbox[i]) && Fresh(w.s, w.outbox[i]);
      }
    }
  }

  lemma {:induction false} EnqueuedParts(s: State, k: Key, kind: Kind, payload: seq<Octet>)
    requires k in s.devices
    ensures var (t, op) := Enqueued(s, k, kind, payload);
            && op.Some? && op.value.kind == kind && op.value.payload == payload
            && t.devices.Keys == s.devices.Keys && forall j :: j in s.devices ==>
               t.devices[j].nextCounter == s.devices[j].nextCounter
  {
  }

  lemma {:induction false} CounterWorld(w: World, k: Key)
    requires WorldInv(w)
    ensures WorldInv(w.(s := CounterTaken(w.s, k).0))
  {
    OtherWorld(w, TakeCounter(k));
  }

  lemma {:induction false} OtherWorld(w: World, c: Call)
    requires WorldInv(w) && Plain(c)
    ensures WorldInv(w.(s := Step(w.s, c)))
  {
    var t := Step(w.s, c);
    StepInv(w.s, c);
    PlainDevices(w.s, c);
    hide Step, Inv, QueueOf, QueueOk, Fresh, OutOk;
    forall k ensures QueueOf(t, k) == QueueOf(w.s, k) { PlainQueue(w.s, c, k); }
    KeptQueues(w, t);
  }

  /** A counter that no queued package reaches is fresh, in the outbox too. */
  lemma {:induction false} NextIsFresh(w: World, t: State, o: Outgoing)
    requires WorldInv(w) && Inv(t) && QueueOf(t, o.k) == QueueOf(w.s, o.k)
             && o.request.signed.counter == NextCounter(w.s, o.k)
    ensures Fresh(t, o) && forall i :: 0 <= i < |w.outbox| ==> !Clash(w.outbox[i], o)
  {
    hide Inv, QueueOf, SignedQueue, RequestOk, CounterOf;
    assert QueueOk(w.s, o.k);
    forall i | 0 <= i < |w.outbox| ensures !Clash(w.outbox[i], o) { assert OutOk(w.s, w.outbox[i]); }
  }

  lemma {:induction false} AddOut(w: World, o: Outgoing)
    requires WorldInv(w) && OutOk(w.s, o) && Fresh(w.s, o) && forall i :: 0 <= i < |w.outbox| ==> !Clash(w.outbox[i], o)
    ensures WorldInv(w.(outbox := w.outbox + [o]))
  {
    hide Inv, QueueOk, OutOk, Fresh, Clash;
  }

  lemma {:induction false} SignWorld(signer: Signer, w: World, k: Key, input: Input)
    requires WorldInv(w) && InputOk(input)
    ensures WorldInv(WorldStep(signer, w, SignPackage(k, input)))
  {
    CounterWorld(w, k);
    var (t, request) := Sign(signer, w.s, k, input);
    SignedStates(signer, w.s, k, input);
    if request.Some? {
      SignedParts(signer, w.s, k, input);
      PlainQueue(w.s, TakeCounter(k), k);
      hide Sign, Step, CounterTaken, QueueOf, RequestOk, InputOk, Inv, WorldInv, Fresh, Clash;
      var o := Outgoing(k, request.value);
      NextIsFresh(w, t, o);
      AddOut(World(t, w.outbox), o);
    } else {
      hide WorldInv, Sign;
    }
  }

  lemma {:induction false} SignedStates(signer: Signer, s: State, k: Key, input: Input)
    ensures Sign(signer, s, k, input).0 in {s, CounterTaken(s, k).0}
  {
    hide CounterTaken, TokenFor, Fits, SignedRequest;
  }

  /** A signed request carries the counter that was next, and the next one is greater. */
  lemma {:induction false} SignedParts(signer: Signer, s: State, k: Key, input: Input)
    requires Inv(s) && InputOk(input) && Sign(signer, s, k, input).1.Some?
    ensures var (t, request) := Sign(signer, s, k, input);
            && k in s.devices && t == CounterTaken(s, k).0 && t == Step(s, TakeCounter(k)) && k in t.devices
            && RequestOk(request.value)
            && request.value.signed.counter == NextCounter(s, k) && NextCounter(t, k) == NextCounter(s, k) + 1
  {
    hide OpsOk, NoDuplicates, NoGaps, ProfilesOk, TokenFor, Fits, PackageOk, PackageFits;
  }

  lemma {:induction false} WithoutAt(w: World, i: int, j: int)
    requires WorldInv(w) && 0 <= i < |w.outbox| && 0 <= j < |w.outbox| - 1
    ensures var r := Without(w.outbox, i);
            && |r| == |w.outbox| - 1 && r[j] in w.outbox && !Clash(r[j], w.outbox[i])
            && (forall l :: j < l < |r| ==> !Clash(r[j], r[l]))
  {
    hide Inv, QueueOk, OutOk, Fresh;
    var r := Without(w.outbox, i);
    var n := if j < i then j else j + 1;
    assert r[j] == w.outbox[n];
    forall l | j < l < |r| ensures !Clash(r[j], r[l]) {
      assert r[l] == w.outbox[if l < i then l else l + 1];
    }
  }

  lemma {:induction false} WithoutInv(w: World, i: int)
    requires WorldInv(w) && 0 <= i < |w.outbox|
    ensures WorldInv(w.(outbox := Without(w.outbox, i)))
  {
    hide Inv, QueueOk, OutOk, Fresh, Clash, Without;
    var rest := w.(outbox := Without(w.outbox, i));
    assert |rest.outbox| == |w.outbox| - 1 by { WithoutSize(w.outbox, i); }
    forall j | 0 <= j < |rest.outbox| ensures OutOk(w.s, rest.outbox[j]) && Fresh(w.s, rest.outbox[j])
    {
      WithoutAt(w, i, j);
    }
    forall j, l | 0 <= j < l < |rest.outbox| ensures !Clash(rest.outbox[j], rest.outbox[l]) { WithoutAt(w, i, j); }
  }

  lemma {:induction false} WithoutSize(outbox: seq<Outgoing>, i: int)
    requires 0 <= i < |outbox|
    ensures |Without(outbox, i)| == |outbox| - 1
  {
  }

  lemma {:induction false} PostWorld(signer: Signer, w: World, i: int)
    requires WorldInv(w) && 0 <= i < |w.outbox|
    ensures WorldInv(WorldStep(signer, w, Post(i)))
  {
    var o := w.outbox[i];
    var rest := w.(outbox := Without(w.outbox, i));
    assert OutOk(w.s, o) && Fresh(w.s, o);
    WithoutInv(w, i);
    WithoutSize(w.outbox, i);
    forall j | 0 <= j < |rest.outbox| ensures !Clash(rest.outbox[j], o) { WithoutAt(w, i, j); }
    PostOk(w.s, o);
    hide Inv, WorldInv, OutOk, Fresh, Queued, Without, SignedOp, CounterOf, QueueOf;
    EnqueueWorld(rest, o.k, EuiccPackageKind, EncodeRequest(o.request));
  }

  lemma {:induction false} PostOk(s: State, o: Outgoing)
    requires Inv(s) && OutOk(s, o) && Fresh(s, o)
    ensures var p := Operation(0, [], 0, EuiccPackageKind, EncodeRequest(o.request), Pending);
            && SignedOp(p) && CounterOf(p) == o.request.signed.counter < NextCounter(s, o.k)
               && !Queued(QueueOf(s, o.k), CounterOf(p))
  {
    hide Inv, QueueOf, Queued, EncodeRequest;
    QueuedIsSigned(o.request, Operation(0, [], 0, EuiccPackageKind, EncodeRequest(o.request), Pending));
  }

  lemma {:induction false} WorldStepInv(signer: Signer, w: World, e: Event)
    requires WorldInv(w) && EventOk(e)
    ensures WorldInv(WorldStep(signer, w, e))
  {
    hide WorldInv;
    match e
    case SignPackage(k, input) => SignWorld(signer, w, k, input);
    case Post(i) => if 0 <= i < |w.outbox| { PostWorld(signer, w, i); }
    case Other(call) =>
      if call.Record? {
        RecordWorld(w, call.tenantID, call.r);
      } else if call.Enqueue? {
        EnqueueWorld(w, call.k, call.kind, call.payload);
      } else {
        OtherWorld(w, call);
      }
  }

  lemma {:induction false} WorldRunInv(signer: Signer, w: World, events: seq<Event>)
    requires WorldInv(w) && forall i :: 0 <= i < |events| ==> EventOk(events[i])
    ensures WorldInv(WorldRun(signer, w, events))
    decreases |events|
  {
    hide WorldInv, WorldStep, EventOk;
    if events != [] {
      WorldStepInv(signer, w, events[0]);
      WorldRunInv(signer, WorldStep(signer, w, events[0]), events[1..]);
    }
  }

  /**
   In every run in which packages come from Sign, a signed result matches at most one
   operation of its device and the matcher finds it, pending or finished, while the device
   has at most 10000 operations.
   */
  lemma {:induction false} ResultsCorrelate(
    signer: Signer, events: seq<Event>, k: Key, eimID: Text, counter: Int64, tx: Text
  )
    requires counter != 0 && forall i :: 0 <= i < |events| ==> EventOk(events[i])
    ensures Inv(WorldRun(signer, World(Empty(), []), events).s)
    ensures var s := WorldRun(signer, World(Empty(), []), events).s;
            |QueueOf(s, k)| <= WINDOW ==>
              SignedQueue(QueueOf(s, k))
                && Exact(Correlate(s, k, eimID, counter, tx), QueueOf(s, k), eimID, counter, tx)
  {
    EmptyWorld();
    WorldRunInv(signer, World(Empty(), []), events);
    var s := WorldRun(signer, World(Empty(), []), events).s;
    hide WorldRun, Inv, QueueOf, SignedQueue, Correlate, Exact;
    assert QueueOk(s, k);
    if |QueueOf(s, k)| <= WINDOW { CorrelateExact(s, k, eimID, counter, tx); }
  }

  lemma {:induction false} EmptyWorld()
    ensures WorldInv(World(Empty(), []))
  {
    var s := Empty();
    assert Inv(s);
    forall k ensures QueueOk(s, k) { assert QueueOf(s, k) == []; }
  }
}
