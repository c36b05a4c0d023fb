/**
 The contents of the in-memory store (storage/memory/store.go) as a value, what each
 store operation does to it, and what every reachable store keeps. Times are left out.
 */
module StoreState {
  import opened Octets

  // "openiotrsp"
  const DEFAULT_TENANT: Text := [111, 112, 101, 110, 105, 111, 116, 114, 115, 112]

  /** NormalizeTenantID. */
  function Tenant(t: Text): (r: Text) { if t == [] then DEFAULT_TENANT else t }

  datatype Key = Key(tenant: Text, eid: Text)

  function KeyOf(tenantID: Text, eid: Text): (r: Key) { Key(Tenant(tenantID), eid) }

  datatype Counters = Counters(nextSequence: int, nextCounter: int)

  datatype Status = Pending | InFlight | Done | Failed

  datatype Kind = EuiccPackageKind | DownloadTriggerKind | IpaEuiccDataKind

  datatype Operation = Operation(
    id: int, eid: Text, sequenceNumber: int, kind: Kind, payload: seq<Octet>, status: Status)

  datatype Stored = Stored(tenant: Text, op: Operation)

  datatype Profile = Profile(eid: Text, iccid: Text, enabled: bool, fallback: bool, smdp: Text)

  /** reported stands for everything else the device reported about itself. */
  datatype Euicc = Euicc(eid: Text, defaultSmdp: Text, reported: Text)

  datatype AssociatedEim = AssociatedEim(eid: Text, eimID: Text, idType: Option<Int64>, config: seq<Octet>)

  datatype Recorded = Recorded(eid: Text, operationID: int, sequenceNumber: int, status: Status, payload: seq<Octet>)

  datatype Notification = Notification(eid: Text, sequenceNumber: int, kind: Text, payload: seq<Octet>)

  /** A record of one device, by the device and a name or number within it. */
  datatype Slot<T> = Slot(device: Key, name: T)

  /** What the eIM knows about the eUICCs: package effects read and write nothing else. */
  datatype Records = Records(
    profiles: map<Slot<Text>, Profile>, euiccs: map<Key, Euicc>, eims: map<Slot<Text>, AssociatedEim>)

  datatype State = State(
    devices: map<Key, Counters>,
    records: Records,
    operations: map<int, Stored>,
    results: map<Slot<int>, Recorded>,
    notifications: map<Slot<int>, Notification>,
    nextID: int)

  function Empty(): (r: State) { State(map[], Records(map[], map[], map[]), map[], map[], map[], 1) }

  // ---- what the operations do; None or false is ErrNotFound ----

  function Registered(s: State, k: Key): (r: State) {
    if k in s.devices then s else s.(devices := s.devices[k := Counters(1, 1)])
  }

  function CounterTaken(s: State, k: Key): (r: (State, Option<int>)) {
    if k !in s.devices then (s, None)
    else
      var d := s.devices[k];
      (s.(devices := s.devices[k := d.(nextCounter := d.nextCounter + 1)]), Some(d.nextCounter))
  }

  function Enqueued(s: State, k: Key, kind: Kind, payload: seq<Octet>): (r: (State, Option<Operation>)) {
    if k !in s.devices then (s, None)
    else
      var d := s.devices[k];
      var op := Operation(s.nextID, k.eid, d.nextSequence, kind, payload, Pending);
      (s.(devices := s.devices[k := d.(nextSequence := d.nextSequence + 1)],
          operations := s.operations[s.nextID := Stored(k.tenant, op)],
          nextID := s.nextID + 1), Some(op))
  }

  function ProfileSet(s: State, tenantID: Text, p: Profile): (r: (State, bool)) {
    var k := KeyOf(tenantID, p.eid);
    if k !in s.devices then (s, false)
    else (s.(records := s.records.(profiles := s.records.profiles[Slot(k, p.iccid) := p])), true)
  }

  function ProfileDeleted(s: State, k: Key, iccid: Text): (r: (State, bool)) {
    if k !in s.devices || Slot(k, iccid) !in s.records.profiles then (s, false)
    else (s.(records := s.records.(profiles := s.records.profiles - {Slot(k, iccid)})), true)
  }

  function EuiccSet(s: State, tenantID: Text, e: Euicc): (r: (State, bool)) {
    var k := KeyOf(tenantID, e.eid);
    if k !in s.devices then (s, false) else (s.(records := s.records.(euiccs := s.records.euiccs[k := e])), true)
  }

  function EimSet(s: State, tenantID: Text, a: AssociatedEim): (r: (State, bool)) {
    var k := KeyOf(tenantID, a.eid);
    if k !in s.devices then (s, false)
    else (s.(records := s.records.(eims := s.records.eims[Slot(k, a.eimID) := a])), true)
  }

  function EimDeleted(s: State, k: Key, eimID: Text): (r: (State, bool)) {
    if k !in s.devices || Slot(k, eimID) !in s.records.eims then (s, false)
    else (s.(records := s.records.(eims := s.records.eims - {Slot(k, eimID)})), true)
  }

  function NotificationStored(s: State, tenantID: Text, n: Notification): (r: (State, bool)) {
    var k := KeyOf(tenantID, n.eid);
    if k !in s.devices || n.sequenceNumber <= 0 then (s, false)
    else (s.(notifications := s.notifications[Slot(k, n.sequenceNumber) := n]), true)
  }

  /** normalizeResultStatus. */
  function Finished(status: Status): (r: Status) { if status == Failed then Failed else Done }

  /** The operations a result finishes. */
  predicate Concerns(r: Recorded, tenant: Text, o: Stored) {
    o.tenant == tenant
    && if r.operationID != 0 then o.op.id == r.operationID
       else o.op.eid == r.eid && o.op.sequenceNumber == r.sequenceNumber
  }

  /** The result as it is stored: an operation ID decides the device and the sequence number. */
  function Addressed(s: State, tenant: Text, r: Recorded): (a: Option<Recorded>) {
    if r.operationID == 0 then Some(r.(status := Finished(r.status)))
    else if r.operationID !in s.operations || s.operations[r.operationID].tenant != tenant then None
    else
      var op := s.operations[r.operationID].op;
      Some(r.(eid := op.eid, sequenceNumber := op.sequenceNumber, status := Finished(r.status)))
  }

  function FinishAll(ops: map<int, Stored>, tenant: Text, r: Recorded): (a: map<int, Stored>) {
    map id | id in ops :: if Concerns(r, tenant, ops[id]) then ops[id].(op := ops[id].op.(status := r.status))
      else ops[id]
  }

  function ResultRecorded(s: State, tenantID: Text, r: Recorded): (a: (State, bool)) {
    var tenant := Tenant(tenantID);
    var addressed := Addressed(s, tenant, r);
    if addressed.None? || Key(tenant, addressed.value.eid) !in s.devices then (s, false)
    else
      var x := addressed.value;
      (s.(results := s.results[Slot(Key(tenant, x.eid), x.sequenceNumber) := x],
          operations := FinishAll(s.operations, tenant, x)), true)
  }

  // ---- what every reachable store keeps ----

  predicate At(o: Stored, k: Key, n: int) { o.tenant == k.tenant && o.op.eid == k.eid && o.op.sequenceNumber == n }

  function Owner(o: Stored): (k: Key) { Key(o.tenant, o.op.eid) }

  ghost predicate HasOp(s: State, k: Key, n: int) {
    exists id :: id in s.operations && At(s.operations[id], k, n)
  }

  /** Sequence numbers below the device's next one, and a result of the same status once finished. */
  predicate OpOk(s: State, id: int)
    requires id in s.operations
  {
    var o := s.operations[id];
    && o.op.id == id && 1 <= id < s.nextID
    && Owner(o) in s.devices && 1 <= o.op.sequenceNumber < s.devices[Owner(o)].nextSequence
    && (o.op.status == Pending || FinishedOk(s, o))
  }

  predicate FinishedOk(s: State, o: Stored) {
    var slot := Slot(Owner(o), o.op.sequenceNumber);
    o.op.status in {Done, Failed} && slot in s.results && s.results[slot].status == o.op.status
  }

  ghost predicate OpsOk(s: State) {
    forall id :: id in s.operations ==> OpOk(s, id)
  }

  predicate SameSlot(a: Stored, b: Stored) { At(a, Owner(b), b.op.sequenceNumber) }

  ghost predicate NoDuplicates(s: State) {
    forall i, j :: i in s.operations && j in s.operations && SameSlot(s.operations[i], s.operations[j]) ==> i == j
  }

  ghost predicate NoGaps(s: State) {
    forall k, n :: k in s.devices && 1 <= n < s.devices[k].nextSequence ==> HasOp(s, k, n)
  }

  ghost predicate CountersOk(s: State) {
    s.nextID >= 1 && forall k :: k in s.devices ==> s.devices[k].nextSequence >= 1 && s.devices[k].nextCounter >= 1
  }

  ghost predicate ProfilesOk(s: State) {
    forall p :: p in s.records.profiles ==>
                  && p.device in s.devices
                  && s.records.profiles[p].eid == p.device.eid && s.records.profiles[p].iccid == p.name
  }

  /**
   The operations of each device carry the numbers 1 to next-1 exactly once, IDs are
   unique, and finished operations have a result of their status.
   */
  ghost predicate Inv(s: State) {
    CountersOk(s) && OpsOk(s) && NoDuplicates(s) && NoGaps(s) && ProfilesOk(s)
  }

  datatype Call =
    | Register(k: Key)
    | TakeCounter(k: Key)
    | Enqueue(k: Key, kind: Kind, payload: seq<Octet>)
    | SetProfile(tenantID: Text, p: Profile)
    | DeleteProfile(k: Key, iccid: Text)
    | SetEuicc(tenantID: Text, e: Euicc)
    | SetEim(tenantID: Text, a: AssociatedEim)
    | DeleteEim(k: Key, eimID: Text)
    | Record(tenantID: Text, r: Recorded)
    | StoreNotification(tenantID: Text, n: Notification)

  function Step(s: State, c: Call): (r: State) {
    match c
    case Register(k) => Registered(s, k)
    case TakeCounter(k) => CounterTaken(s, k).0
    case Enqueue(k, kind, payload) => Enqueued(s, k, kind, payload).0
    case SetProfile(t, p) => ProfileSet(s, t, p).0
    case DeleteProfile(k, iccid) => ProfileDeleted(s, k, iccid).0
    case SetEuicc(t, e) => EuiccSet(s, t, e).0
    case SetEim(t, a) => EimSet(s, t, a).0
    case DeleteEim(k, eimID) => EimDeleted(s, k, eimID).0
    case Record(t, r) => ResultRecorded(s, t, r).0
    case StoreNotification(t, n) => NotificationStored(s, t, n).0
  }

  function Run(s: State, calls: seq<Call>): (r: State)
    decreases |calls|
  {
    if calls == [] then s else Run(Step(s, calls[0]), calls[1..])
  }

  /** Nothing Inv speaks of changes. */
  lemma {:induction false} SameQueues(s: State, t: State)
    requires Inv(s) && t.operations == s.operations && t.results == s.results && t.nextID == s.nextID
    requires forall k :: k in s.devices ==> k in t.devices && t.devices[k].nextSequence == s.devices[k].nextSequence
    requires forall k :: k in t.devices ==>
                           t.devices[k].nextCounter >= 1 && (k !in s.devices ==> t.devices[k].nextSequence == 1)
    requires ProfilesOk(t)
    ensures Inv(t)
  {
    forall id | id in t.operations ensures OpOk(t, id) { assert OpOk(s, id); }
    forall k, n | k in t.devices && 1 <= n < t.devices[k].nextSequence ensures HasOp(t, k, n) {
      assert HasOp(s, k, n);
      var id :| id in s.operations && At(s.operations[id], k, n);
      assert At(t.operations[id], k, n);
    }
    forall i, j | i in t.operations && j in t.operations && SameSlot(t.operations[i], t.operations[j]) ensures i == j {
      assert SameSlot(s.operations[i], s.operations[j]);
    }
  }

  lemma {:induction false} EnqueueInv(s: State, k: Key, kind: Kind, payload: seq<Octet>)
    requires Inv(s)
    ensures Inv(Enqueued(s, k, kind, payload).0)
  {
    if k in s.devices {
      var t := Enqueued(s, k, kind, payload).0;
      var next := s.devices[k].nextSequence;
      hide SameSlot;
      assert s.nextID in s.operations ==> OpOk(s, s.nextID);
      forall id | id in t.operations ensures OpOk(t, id) {
        if id != s.nextID { assert OpOk(s, id); }
      }
      EnqueueDistinct(s, k, kind, payload);
      forall j, n | j in t.devices && 1 <= n < t.devices[j].nextSequence ensures HasOp(t, j, n) {
        if j == k && n == next {
          assert At(t.operations[s.nextID], j, n);
        } else {
          assert HasOp(s, j, n);
          var id :| id in s.operations && At(s.operations[id], j, n);
          assert At(t.operations[id], j, n);
        }
      }
    }
  }

  lemma {:induction false} EnqueueDistinct(s: State, k: Key, kind: Kind, payload: seq<Octet>)
    requires Inv(s) && k in s.devices && s.nextID !in s.operations
    ensures NoDuplicates(Enqueued(s, k, kind, payload).0)
  {
    hide NoGaps, HasOp, ProfilesOk;
    var t := Enqueued(s, k, kind, payload).0;
    forall i, j | i in t.operations && j in t.operations && SameSlot(t.operations[i], t.operations[j]) ensures i == j {
      if i in s.operations { assert OpOk(s, i); }
      if j in s.operations { assert OpOk(s, j); }
      if i in s.operations && j in s.operations { assert SameSlot(s.operations[i], s.operations[j]); }
    }
  }

  /** A result reaches at most one operation, and that one has its slot. */
  lemma {:induction false} ConcernsSlot(s: State, tenant: Text, r: Recorded, id: int)
    requires OpsOk(s) && NoDuplicates(s) && id in s.operations
    requires Addressed(s, tenant, r).Some?
    ensures var x := Addressed(s, tenant, r).value;
            Concerns(x, tenant, s.operations[id]) <==> At(s.operations[id], Key(tenant, x.eid), x.sequenceNumber)
  {
    assert OpOk(s, id);
    var x := Addressed(s, tenant, r).value;
    if x.operationID != 0 {
      assert OpOk(s, x.operationID);
      if At(s.operations[id], Key(tenant, x.eid), x.sequenceNumber) {
        assert SameSlot(s.operations[id], s.operations[x.operationID]);
      }
    }
  }

  lemma {:induction false} FinishKeepsPlaces(s: State, tenant: Text, r: Recorded, id: int)
    requires id in s.operations
    ensures var o := FinishAll(s.operations, tenant, r)[id];
            && Owner(o) == Owner(s.operations[id])
            && o.op == s.operations[id].op.(status := o.op.status)
            && o.op.status == if Concerns(r, tenant, s.operations[id]) then r.status else s.operations[id].op.status
  {
  }

  lemma {:induction false} RecordOpsOk(s: State, tenantID: Text, r: Recorded)
    requires Inv(s) && ResultRecorded(s, tenantID, r).1
    ensures OpsOk(ResultRecorded(s, tenantID, r).0)
  {
    var tenant := Tenant(tenantID);
    var t := ResultRecorded(s, tenantID, r).0;
    var x := Addressed(s, tenant, r).value;
    assert x.status in {Done, Failed};
    hide Addressed, Concerns, FinishAll, NoGaps, ProfilesOk;
    assert t.operations == FinishAll(s.operations, tenant, x);
    forall id | id in t.operations ensures OpOk(t, id) {
      FinishKeys(s.operations, tenant, x);
      assert OpOk(s, id);
      ConcernsSlot(s, tenant, r, id);
      FinishKeepsPlaces(s, tenant, x, id);
    }
  }

  lemma {:induction false} FinishKeys(ops: map<int, Stored>, tenant: Text, r: Recorded)
    ensures FinishAll(ops, tenant, r).Keys == ops.Keys
  {
  }

  lemma {:induction false} RecordInv(s: State, tenantID: Text, r: Recorded)
    requires Inv(s)
    ensures Inv(ResultRecorded(s, tenantID, r).0)
  {
    var (t, ok) := ResultRecorded(s, tenantID, r);
    if ok {
      RecordOpsOk(s, tenantID, r);
      var x := Addressed(s, Tenant(tenantID), r).value;
      assert t.operations == FinishAll(s.operations, Tenant(tenantID), x);
      FinishKeys(s.operations, Tenant(tenantID), x);
      hide Addressed, Concerns, FinishAll, OpsOk;
      forall i, j | i in t.operations && j in t.operations && SameSlot(t.operations[i], t.operations[j])
        ensures i == j {
        FinishKeepsPlaces(s, Tenant(tenantID), x, i);
        FinishKeepsPlaces(s, Tenant(tenantID), x, j);
        assert SameSlot(s.operations[i], s.operations[j]);
      }
      forall k, n | k in t.devices && 1 <= n < t.devices[k].nextSequence ensures HasOp(t, k, n) {
        assert HasOp(s, k, n);
        var id :| id in s.operations && At(s.operations[id], k, n);
        FinishKeepsPlaces(s, Tenant(tenantID), x, id);
        assert At(t.operations[id], k, n);
      }
    }
  }

  predicate Plain(c: Call) { !c.Enqueue? && !c.Record? }

  ghost predicate DevicesKept(d: map<Key, Counters>, e: map<Key, Counters>) {
    forall k :: k in e ==>
      if k in d then e[k].nextSequence == d[k].nextSequence && e[k].nextCounter >= d[k].nextCounter
      else e[k] == Counters(1, 1)
  }

  /** Only enqueueing and recording touch operations, their results and their numbering. */
  lemma {:induction false} PlainStep(s: State, c: Call)
    requires Plain(c)
    ensures var t := Step(s, c); t.operations == s.operations && t.results == s.results && t.nextID == s.nextID
  {
    hide Enqueued, ResultRecorded, KeyOf;
  }

  lemma {:induction false} PlainDevices(s: State, c: Call)
    requires Plain(c)
    ensures DevicesKept(s.devices, Step(s, c).devices) && s.devices.Keys <= Step(s, c).devices.Keys
  {
    hide Enqueued, ResultRecorded, KeyOf;
    var d := s.devices;
    if c.Register? && c.k !in d {
      assert Step(s, c).devices == d[c.k := Counters(1, 1)];
    } else if c.TakeCounter? && c.k in d {
      assert Step(s, c).devices == d[c.k := d[c.k].(nextCounter := d[c.k].nextCounter + 1)];
    } else {
      assert Step(s, c).devices == d;
    }
    hide Step;
  }

  lemma {:induction false} ProfileSetOk(s: State, tenantID: Text, p: Profile)
    requires ProfilesOk(s)
    ensures ProfilesOk(ProfileSet(s, tenantID, p).0)
  {
    hide Tenant;
  }

  lemma {:induction false} ProfileDeletedOk(s: State, k: Key, iccid: Text)
    requires ProfilesOk(s)
    ensures ProfilesOk(ProfileDeleted(s, k, iccid).0)
  {
  }

  lemma {:induction false} OtherProfiles(s: State, c: Call)
    requires Plain(c) && !c.SetProfile? && !c.DeleteProfile?
    ensures Step(s, c).records.profiles == s.records.profiles
  {
    hide KeyOf;
  }

  lemma {:induction false} PlainProfiles(s: State, c: Call)
    requires Plain(c) && ProfilesOk(s) && s.devices.Keys <= Step(s, c).devices.Keys
    ensures ProfilesOk(Step(s, c))
  {
    if c.SetProfile? {
      hide ProfilesOk, ProfileSet;
      ProfileSetOk(s, c.tenantID, c.p);
    } else if c.DeleteProfile? {
      hide ProfilesOk, ProfileDeleted;
      ProfileDeletedOk(s, c.k, c.iccid);
    } else {
      hide Step;
      OtherProfiles(s, c);
    }
  }

  lemma {:induction false} StepInv(s: State, c: Call)
    requires Inv(s)
    ensures Inv(Step(s, c))
  {
    if c.Enqueue? {
      EnqueueInv(s, c.k, c.kind, c.payload);
    } else if c.Record? {
      RecordInv(s, c.tenantID, c.r);
    } else {
      PlainStep(s, c);
      PlainDevices(s, c);
      PlainProfiles(s, c);
      hide Step, OpsOk, NoDuplicates, NoGaps, ProfilesOk;
      SameQueues(s, Step(s, c));
    }
  }

  lemma {:induction false} RunInv(s: State, calls: seq<Call>)
    requires Inv(s)
    ensures Inv(Run(s, calls))
    decreases |calls|
  {
    if calls != [] {
      StepInv(s, calls[0]);
      RunInv(Step(s, calls[0]), calls[1..]);
    }
  }

  /** Every reachable store numbers its operations without gaps or repetition and keeps their results. */
  lemma {:induction false} ReachableInv(calls: seq<Call>)
    ensures Inv(Run(Empty(), calls))
  {
    RunInv(Empty(), calls);
  }

  // ---- finished operations ----

  /** The same operation, finished. */
  predicate StaysFinished(o: Stored, t: State) {
    && o.op.id in t.operations
    && var p := t.operations[o.op.id];
       && Owner(p) == Owner(o) && p.op == o.op.(status := p.op.status)
       && FinishedOk(t, p)
  }

  lemma {:induction false} StepFinished(s: State, c: Call, id: int)
    requires Inv(s) && id in s.operations && s.operations[id].op.status != Pending
    ensures StaysFinished(s.operations[id], Step(s, c)) && Step(s, c).operations[id].op.status != Pending
  {
    assert OpOk(s, id);
    if c.Record? {
      RecordFinished(s, c.tenantID, c.r, id);
    } else if c.Enqueue? {
      EnqueueInv(s, c.k, c.kind, c.payload);
    } else {
      PlainStep(s, c);
      hide Step;
    }
  }

  lemma {:induction false} RecordFinished(s: State, tenantID: Text, r: Recorded, id: int)
    requires Inv(s) && id in s.operations && s.operations[id].op.status != Pending
    ensures var t := ResultRecorded(s, tenantID, r).0;
            StaysFinished(s.operations[id], t) && t.operations[id].op.status != Pending
  {
    assert OpOk(s, id);
    RecordInv(s, tenantID, r);
    var (t, ok) := ResultRecorded(s, tenantID, r);
    if ok {
      var x := Addressed(s, Tenant(tenantID), r).value;
      FinishKeepsPlaces(s, Tenant(tenantID), x, id);
      assert x.status != Pending;
      hide Concerns, FinishAll, Addressed, NoGaps, NoDuplicates, ProfilesOk;
      FinishKeys(s.operations, Tenant(tenantID), x);
      assert OpOk(t, id);
    }
  }

  /** A finished operation stays finished in every run, with a stored result of its own status. */
  lemma {:induction false} NeverPendingAgain(s: State, calls: seq<Call>, id: int)
    requires Inv(s) && id in s.operations && s.operations[id].op.status != Pending
    ensures StaysFinished(s.operations[id], Run(s, calls))
    decreases |calls|
  {
    assert OpOk(s, id);
    if calls != [] {
      StepFinished(s, calls[0], id);
      StepInv(s, calls[0]);
      hide Inv, Step;
      NeverPendingAgain(Step(s, calls[0]), calls[1..], id);
    }
  }
}
