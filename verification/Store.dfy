/** The in-memory store (storage/memory/store.go): maps and counters changed in place under one mutex. */
module Store {
  import opened Octets
  import opened StoreState
  import opened Queue

  // ---- sortOperations ----

  /** o sunk into a sorted list from its right end. */
  function Insert(q: seq<Operation>, o: Operation): (r: seq<Operation>)
    ensures |r| == |q| + 1
  {
    if q == [] || q[|q| - 1].sequenceNumber <= o.sequenceNumber then q + [o] else Insert(q[..|q| - 1], o) + [q[|q| - 1]]
  }

  function Sorted(q: seq<Operation>): (r: seq<Operation>)
    ensures |r| == |q|
  {
    if q == [] then [] else Insert(Sorted(q[..|q| - 1]), q[|q| - 1])
  }

  predicate DistinctNumbers(q: seq<Operation>) {
    forall i, j :: 0 <= i < j < |q| ==> q[i].sequenceNumber != q[j].sequenceNumber
  }

  lemma {:induction false} InsertOk(q: seq<Operation>, o: Operation)
    requires Increasing(q) && forall p :: p in q ==> p.sequenceNumber != o.sequenceNumber
    ensures Increasing(Insert(q, o))
    ensures forall p :: p in Insert(q, o) <==> p in q || p == o
  {
    if q != [] {
      LastGreatest(q);
      var last := q[|q| - 1];
      if last.sequenceNumber > o.sequenceNumber {
        InsertOk(q[..|q| - 1], o);
        AppendIncreasing(Insert(q[..|q| - 1], o), last);
      } else {
        AppendIncreasing(q, o);
      }
    }
  }

  lemma {:induction false} AppendIncreasing(q: seq<Operation>, o: Operation)
    requires Increasing(q) && forall p :: p in q ==> p.sequenceNumber < o.sequenceNumber
    ensures Increasing(q + [o])
  {
  }

  /** Sorting a list of distinct numbers makes it increasing and keeps its members. */
  lemma {:induction false} SortedOk(q: seq<Operation>)
    requires DistinctNumbers(q)
    ensures Increasing(Sorted(q))
    ensures forall p :: p in Sorted(q) <==> p in q
  {
    if q != [] {
      var init, last := q[..|q| - 1], q[|q| - 1];
      SortedOk(init);
      assert q == init + [last];
      hide Increasing;
      assert forall p :: p in init ==> p.sequenceNumber != last.sequenceNumber;
      InsertOk(Sorted(init), last);
    }
  }

  lemma {:induction false} InsertStep(pre: seq<Operation>, j: nat, o: Operation)
    requires 0 < j <= |pre| && pre[j - 1].sequenceNumber > o.sequenceNumber
    ensures Insert(pre[..j], o) == Insert(pre[..j - 1], o) + [pre[j - 1]]
  {
    assert pre[..j][..j - 1] == pre[..j - 1];
  }

  /** The array with o sunk to position j of its prefix. */
  function Sunk(pre: seq<Operation>, o: Operation, rest: seq<Operation>, j: nat): (r: seq<Operation>)
    requires j <= |pre|
    ensures |r| == |pre| + 1 + |rest|
  {
    pre[..j] + [o] + pre[j..] + rest
  }

  lemma {:induction false} SunkStep(pre: seq<Operation>, o: Operation, rest: seq<Operation>, j: nat)
    requires 0 < j <= |pre|
    ensures var s := Sunk(pre, o, rest, j);
            s[j - 1] == pre[j - 1] && s[j] == o && s[j - 1 := o][j := pre[j - 1]] == Sunk(pre, o, rest, j - 1)
  {
  }

  lemma {:induction false} InsertSunk(pre: seq<Operation>, o: Operation, j: nat)
    requires 0 < j <= |pre| && pre[j - 1].sequenceNumber > o.sequenceNumber
    ensures Insert(pre[..j], o) + pre[j..] == Insert(pre[..j - 1], o) + pre[j - 1..]
  {
    InsertStep(pre, j, o);
    hide Insert;
    assert pre[j - 1..] == [pre[j - 1]] + pre[j..];
  }

  /** The inner loop: element i moves left past every greater one. */
  method Sink(a: array<Operation>, i: nat)
    requires i < a.Length
    modifies a
    ensures a[..] == Insert(old(a[..i]), old(a[i])) + old(a[i + 1..])
  {
    hide Insert, Sunk;
    ghost var pre, o, rest := a[..i], a[i], a[i + 1..];
    var j := i;
    assert pre[..i] == pre && pre[i..] == [] && a[..] == Sunk(pre, o, rest, i) by { SunkStart(a[..], i); }
    while j > 0 && a[j - 1].sequenceNumber > a[j].sequenceNumber
      invariant 0 <= j <= i
      invariant a[..] == Sunk(pre, o, rest, j)
      invariant Insert(pre, o) == Insert(pre[..j], o) + pre[j..]
    {
      SunkStep(pre, o, rest, j);
      assert a[j - 1] == a[..][j - 1] && a[j] == a[..][j];
      InsertSunk(pre, o, j);
      ghost var before := a[..];
      a[j - 1], a[j] := a[j], a[j - 1];
      assert a[..] == before[j - 1 := o][j := pre[j - 1]];
      j := j - 1;
    }
    if j > 0 {
      SunkStep(pre, o, rest, j);
      assert a[j - 1] == a[..][j - 1] && a[j] == a[..][j];
    }
    InsertRest(pre[..j], o);
    SunkShape(pre, o, rest, j);
  }

  lemma {:induction false} SunkStart(s: seq<Operation>, i: nat)
    requires i < |s|
    ensures Sunk(s[..i], s[i], s[i + 1..], i) == s
  {
  }

  lemma {:induction false} SunkShape(pre: seq<Operation>, o: Operation, rest: seq<Operation>, j: nat)
    requires j <= |pre|
    ensures Sunk(pre, o, rest, j) == ((pre[..j] + [o]) + pre[j..]) + rest
  {
  }

  lemma {:induction false} InsertRest(pre: seq<Operation>, o: Operation)
    requires pre == [] || pre[|pre| - 1].sequenceNumber <= o.sequenceNumber
    ensures Insert(pre, o) == pre + [o]
  {
  }

  method SortOperations(a: array<Operation>)
    modifies a
    ensures a[..] == Sorted(old(a[..]))
  {
    hide Insert;
    ghost var was := a[..];
    if a.Length == 0 { return; }
    assert was[..1] == [was[0]] && was[..1][..0] == [];
    assert Sorted(was[..1]) == [was[0]] by { InsertRest([], was[0]); assert Sorted([]) == []; }
    assert a[..] == Sorted(was[..1]) + was[1..];
    for i := 1 to a.Length
      invariant a[..] == Sorted(was[..i]) + was[i..]
    {
      PrefixOf(a[..], Sorted(was[..i]), was[i..]);
      assert a[i] == a[..][i] && a[..i] == a[..][..i] && a[i + 1..] == a[..][i + 1..];
      assert was[i..][1..] == was[i + 1..] && was[..i + 1][..i] == was[..i];
      Sink(a, i);
    }
    assert was[..a.Length] == was && was[a.Length..] == [];
  }

  lemma {:induction false} PrefixOf(s: seq<Operation>, p: seq<Operation>, q: seq<Operation>)
    requires s == p + q && q != []
    ensures s[..|p|] == p && s[|p|] == q[0] && s[|p| + 1..] == q[1..]
  {
  }

  // ---- the store ----

  lemma {:induction false} NoneAt(s: State, k: Key, n: int)
    requires Inv(s) && forall id :: id in s.operations ==> !At(s.operations[id], k, n)
    ensures !(1 <= n <= |QueueOf(s, k)|)
  {
    hide Inv, QueueOf;
    if 1 <= n <= |QueueOf(s, k)| { QueueElement(s, k, n - 1); }
  }

  predicate HasProfile(profiles: map<Slot<Text>, Profile>, k: Key, p: Profile) {
    Slot(k, p.iccid) in profiles && profiles[Slot(k, p.iccid)] == p
  }

  /** The profiles of device k, each once. */
  ghost predicate ListsProfiles(r: seq<Profile>, profiles: map<Slot<Text>, Profile>, k: Key) {
    && (forall p :: p in r <==> HasProfile(profiles, k, p))
    && (forall i, j :: 0 <= i < j < |r| ==> r[i].iccid != r[j].iccid)
  }

  lemma {:induction false} InhabitedSlots(slots: set<Slot<Text>>)
    requires slots != {}
    ensures exists slot :: slot in slots
  {
    assert (forall slot :: slot !in slots) ==> slots == {};
  }

  lemma {:induction false} Inhabited(ids: set<int>)
    requires ids != {}
    ensures exists id :: id in ids
  {
    assert (forall id :: id !in ids) ==> ids == {};
  }

  class Store {
    var devices: map<Key, Counters>
    var profiles: map<Slot<Text>, Profile>
    var euiccs: map<Key, Euicc>
    var eims: map<Slot<Text>, AssociatedEim>
    var operations: map<int, Stored>
    var results: map<Slot<int>, Recorded>
    var notifications: map<Slot<int>, Notification>
    var nextID: int

    ghost function View(): (s: State)
      reads this
    {
      State(devices, Records(profiles, euiccs, eims), operations, results, notifications, nextID)
    }

    constructor ()
      ensures View() == Empty() && Inv(View())
    {
      devices, profiles, euiccs, eims, operations := map[], map[], map[], map[], map[];
      results, notifications, nextID := map[], map[], 1;
    }

    method RegisterDevice(tenantID: Text, eid: Text)
      requires Inv(View())
      modifies this
      ensures View() == Registered(old(View()), KeyOf(tenantID, eid)) && Inv(View())
    {
      ghost var s := View();
      var key := KeyOf(tenantID, eid);
      StepInv(s, Register(key));
      if key in devices { return; }
      devices := devices[key := Counters(1, 1)];
    }

    method NextEuiccPackageCounter(tenantID: Text, eid: Text) returns (counter: Option<int>)
      requires Inv(View())
      modifies this
      ensures (View(), counter) == CounterTaken(old(View()), KeyOf(tenantID, eid)) && Inv(View())
    {
      ghost var s := View();
      var key := KeyOf(tenantID, eid);
      StepInv(s, TakeCounter(key));
      if key !in devices { return None; }
      var device := devices[key];
      counter := Some(device.nextCounter);
      devices := devices[key := device.(nextCounter := device.nextCounter + 1)];
    }

    method EnqueueOperation(tenantID: Text, eid: Text, kind: Kind, payload: seq<Octet>) returns (r: Option<Operation>)
      requires Inv(View())
      modifies this
      ensures (View(), r) == Enqueued(old(View()), KeyOf(tenantID, eid), kind, payload) && Inv(View())
    {
      ghost var s := View();
      var key := KeyOf(tenantID, eid);
      EnqueueInv(s, key, kind, payload);
      if key !in devices { return None; }
      var device := devices[key];
      var operation := Operation(nextID, eid, device.nextSequence, kind, payload, Pending);
      nextID := nextID + 1;
      devices := devices[key := device.(nextSequence := device.nextSequence + 1)];
      operations := operations[operation.id := Stored(key.tenant, operation)];
      r := Some(operation);
    }

    /** One outcome whatever the order in which the map is walked. */
    method GetOperationBySequence(tenantID: Text, eid: Text, n: int) returns (r: Option<Operation>)
      requires Inv(View())
      ensures var q := QueueOf(View(), KeyOf(tenantID, eid));
              r == if 1 <= n <= |q| then Some(q[n - 1]) else None
    {
      hide Inv, QueueOf;
      ghost var k := KeyOf(tenantID, eid);
      var tenant := Tenant(tenantID);
      var ids := operations.Keys;
      while ids != {}
        invariant ids <= operations.Keys
        invariant forall id :: id in operations && id !in ids ==> !At(operations[id], k, n)
        decreases |ids|
      {
        Inhabited(ids);
        var id :| id in ids;
        ids := ids - {id};
        var stored := operations[id];
        if stored.tenant == tenant && stored.op.eid == eid && stored.op.sequenceNumber == n {
          QueueHas(View(), id);
          return Some(stored.op);
        }
      }
      NoneAt(View(), k, n);
      return None;
    }

    ghost predicate Selected(k: Key, pendingOnly: bool, o: Operation)
      reads this
    {
      o.id in operations && operations[o.id] == Stored(k.tenant, o) && o.eid == k.eid
        && (pendingOnly ==> o.status == Pending)
    }

    /** The walk the two listings share. */
    method Select(k: Key, pendingOnly: bool) returns (found: seq<Operation>)
      requires Inv(View())
      ensures forall o :: o in found <==> Selected(k, pendingOnly, o)
      ensures DistinctNumbers(found)
    {
      hide NoGaps, ProfilesOk, CountersOk;
      found := [];
      var ids := operations.Keys;
      while ids != {}
        invariant ids <= operations.Keys
        invariant forall o :: o in found <==> Selected(k, pendingOnly, o) && o.id !in ids
        invariant DistinctNumbers(found)
        decreases |ids|
      {
        Inhabited(ids);
        var id :| id in ids;
        assert OpOk(View(), id);
        ids := ids - {id};
        var stored := operations[id];
        if stored.tenant == k.tenant && stored.op.eid == k.eid && (!pendingOnly || stored.op.status == Pending) {
          forall o | o in found ensures o.sequenceNumber != stored.op.sequenceNumber {
            assert SameSlot(operations[o.id], operations[id]) ==> o.id == id;
          }
          found := found + [stored.op];
        }
      }
    }

    method FetchPendingOperations(tenantID: Text, eid: Text, limit: int) returns (r: seq<Operation>)
      requires Inv(View())
      ensures r == Fetched(View(), KeyOf(tenantID, eid), limit)
    {
      if limit <= 0 { return []; }
      hide Inv, QueueOf, Sorted, Increasing, PendingOf;
      ghost var s, k := View(), KeyOf(tenantID, eid);
      ghost var q := QueueOf(s, k);
      var pending := Select(KeyOf(tenantID, eid), true);
      SortedOk(pending);
      PendingExactly(s, k);
      QueueIncreasing(s, k);
      PendingIncreasing(q);
      IncreasingUnique(Sorted(pending), PendingOf(q)) by {
        forall o ensures o in Sorted(pending) <==> o in PendingOf(q) {
          assert Selected(k, true, o) <==> PendingFor(s, k, o);
        }
      }
      var a := new Operation[|pending|](i requires 0 <= i < |pending| => pending[i]);
      assert a[..] == pending;
      SortOperations(a);
      r := a[..];
      if |r| > limit { r := r[..limit]; }
    }

    method ListOperations(tenantID: Text, eid: Text, limit: int) returns (r: seq<Operation>)
      requires Inv(View())
      ensures r == Listed(View(), KeyOf(tenantID, eid), limit)
    {
      if limit <= 0 { return []; }
      hide Inv, QueueOf, Sorted, Increasing, Selected;
      ghost var s, k := View(), KeyOf(tenantID, eid);
      ghost var q := QueueOf(s, k);
      var found := Select(KeyOf(tenantID, eid), false);
      SortedOk(found);
      QueueIncreasing(s, k);
      IncreasingUnique(Sorted(found), q) by {
        forall o ensures o in Sorted(found) <==> o in q { QueueMember(k, o); }
      }
      var a := new Operation[|found|](i requires 0 <= i < |found| => found[i]);
      assert a[..] == found;
      SortOperations(a);
      r := a[..];
      if |r| > limit { r := r[..limit]; }
    }

    lemma {:induction false} QueueMember(k: Key, o: Operation)
      requires Inv(View())
      ensures Selected(k, false, o) <==> o in QueueOf(View(), k)
    {
      var q := QueueOf(View(), k);
      if o in q {
        var i :| 0 <= i < |q| && q[i] == o;
        QueueElement(View(), k, i);
      }
      if Selected(k, false, o) { QueueHas(View(), o.id); }
    }

    // ---- profiles ----

    method GetProfileState(tenantID: Text, eid: Text, iccid: Text) returns (r: Option<Profile>)
      ensures var slot := Slot(KeyOf(tenantID, eid), iccid);
              r == if slot in profiles then Some(profiles[slot]) else None
    {
      var slot := Slot(KeyOf(tenantID, eid), iccid);
      r := if slot in profiles then Some(profiles[slot]) else None;
    }

    method SetProfileState(tenantID: Text, p: Profile) returns (ok: bool)
      requires Inv(View())
      modifies this
      ensures (View(), ok) == ProfileSet(old(View()), tenantID, p) && Inv(View())
    {
      StepInv(View(), SetProfile(tenantID, p));
      var key := KeyOf(tenantID, p.eid);
      if key !in devices { return false; }
      profiles := profiles[Slot(key, p.iccid) := p];
      return true;
    }

    method DeleteProfileState(tenantID: Text, eid: Text, iccid: Text) returns (ok: bool)
      requires Inv(View())
      modifies this
      ensures (View(), ok) == ProfileDeleted(old(View()), KeyOf(tenantID, eid), iccid) && Inv(View())
    {
      var key := KeyOf(tenantID, eid);
      StepInv(View(), DeleteProfile(key, iccid));
      if key !in devices { return false; }
      if Slot(key, iccid) !in profiles { return false; }
      profiles := profiles - {Slot(key, iccid)};
      return true;
    }

    /** The profiles of the device, each once; the order is left open. */
    method ListProfileStates(tenantID: Text, eid: Text) returns (r: Option<seq<Profile>>)
      requires Inv(View())
      ensures r.None? <==> KeyOf(tenantID, eid) !in devices
      ensures r.Some? ==> ListsProfiles(r.value, profiles, KeyOf(tenantID, eid))
    {
      hide OpsOk, NoDuplicates, NoGaps, CountersOk;
      var key := KeyOf(tenantID, eid);
      if key !in devices { return None; }
      var states: seq<Profile> := [];
      var slots := profiles.Keys;
      while slots != {}
        invariant slots <= profiles.Keys
        invariant forall p :: p in states <==> HasProfile(profiles, key, p) && Slot(key, p.iccid) !in slots
        invariant forall i, j :: 0 <= i < j < |states| ==> states[i].iccid != states[j].iccid
        decreases |slots|
      {
        InhabitedSlots(slots);
        var slot :| slot in slots;
        slots := slots - {slot};
        if slot.device.tenant == key.tenant && slot.device.eid == eid {
          assert slot == Slot(key, slot.name);
          states := states + [profiles[slot]];
        }
      }
      return Some(states);
    }

    // ---- the eUICC record, associated eIMs, notifications ----

    method GetEuiccState(tenantID: Text, eid: Text) returns (r: Option<Euicc>)
      ensures var k := KeyOf(tenantID, eid); r == if k in euiccs then Some(euiccs[k]) else None
    {
      var k := KeyOf(tenantID, eid);
      r := if k in euiccs then Some(euiccs[k]) else None;
    }

    method SetEuiccState(tenantID: Text, e: Euicc) returns (ok: bool)
      requires Inv(View())
      modifies this
      ensures (View(), ok) == EuiccSet(old(View()), tenantID, e) && Inv(View())
    {
      StepInv(View(), SetEuicc(tenantID, e));
      var key := KeyOf(tenantID, e.eid);
      if key !in devices { return false; }
      euiccs := euiccs[key := e];
      return true;
    }

    method GetAssociatedEim(tenantID: Text, eid: Text, eimID: Text) returns (r: Option<AssociatedEim>)
      ensures var slot := Slot(KeyOf(tenantID, eid), eimID); r == if slot in eims then Some(eims[slot]) else None
    {
      var slot := Slot(KeyOf(tenantID, eid), eimID);
      r := if slot in eims then Some(eims[slot]) else None;
    }

    method SetAssociatedEim(tenantID: Text, a: AssociatedEim) returns (ok: bool)
      requires Inv(View())
      modifies this
      ensures (View(), ok) == EimSet(old(View()), tenantID, a) && Inv(View())
    {
      StepInv(View(), SetEim(tenantID, a));
      var key := KeyOf(tenantID, a.eid);
      if key !in devices { return false; }
      eims := eims[Slot(key, a.eimID) := a];
      return true;
    }

    method DeleteAssociatedEim(tenantID: Text, eid: Text, eimID: Text) returns (ok: bool)
      requires Inv(View())
      modifies this
      ensures (View(), ok) == EimDeleted(old(View()), KeyOf(tenantID, eid), eimID) && Inv(View())
    {
      var key := KeyOf(tenantID, eid);
      StepInv(View(), DeleteEim(key, eimID));
      if key !in devices { return false; }
      if Slot(key, eimID) !in eims { return false; }
      eims := eims - {Slot(key, eimID)};
      return true;
    }

    method StoreNotification(tenantID: Text, n: Notification) returns (ok: bool)
      requires Inv(View())
      modifies this
      ensures (View(), ok) == NotificationStored(old(View()), tenantID, n) && Inv(View())
    {
      StepInv(View(), StoreState.StoreNotification(tenantID, n));
      var key := KeyOf(tenantID, n.eid);
      if key !in devices { return false; }
      if n.sequenceNumber <= 0 { return false; }
      notifications := notifications[Slot(key, n.sequenceNumber) := n];
      return true;
    }

    // ---- results ----

    method RecordEuiccPackageResult(tenantID: Text, result: Recorded) returns (ok: bool)
      requires Inv(View())
      modifies this
      ensures (View(), ok) == ResultRecorded(old(View()), tenantID, result) && Inv(View())
    {
      hide Inv, FinishAll, Concerns;
      ghost var s := View();
      RecordInv(s, tenantID, result);
      var tenant := Tenant(tenantID);
      var r := result;
      if r.operationID != 0 {
        if r.operationID !in operations || operations[r.operationID].tenant != tenant { return false; }
        var op := operations[r.operationID].op;
        r := r.(eid := op.eid, sequenceNumber := op.sequenceNumber);
      }
      if Key(tenant, r.eid) !in devices { return false; }
      r := r.(status := Finished(r.status));
      assert Addressed(s, tenant, result) == Some(r);
      results := results[Slot(Key(tenant, r.eid), r.sequenceNumber) := r];
      FinishOne(s, tenant, result);
      FinishMatching(tenant, r);
      return true;
    }

    /** Marks the first operation found that the result concerns; no other could have been. */
    method FinishMatching(tenant: Text, r: Recorded)
      requires forall i, j ::
                 && i in operations && j in operations
                 && Concerns(r, tenant, operations[i]) && Concerns(r, tenant, operations[j])
                 ==> i == j
      modifies this`operations
      ensures operations == FinishAll(old(operations), tenant, r)
    {
      ghost var was := operations;
      var ids := operations.Keys;
      while ids != {}
        invariant operations == was && ids <= operations.Keys
        invariant forall id :: id in operations && Concerns(r, tenant, operations[id]) ==> id in ids
        decreases |ids|
      {
        Inhabited(ids);
        var id :| id in ids;
        ids := ids - {id};
        var stored := operations[id];
        if stored.tenant != tenant { continue; }
        if r.operationID != 0 && stored.op.id != r.operationID { continue; }
        if r.operationID == 0 && (stored.op.eid != r.eid || stored.op.sequenceNumber != r.sequenceNumber) { continue; }
        assert Concerns(r, tenant, was[id]);
        operations := operations[id := stored.(op := stored.op.(status := r.status))];
        FinishFound(was, tenant, r, id);
        return;
      }
      FinishNone(was, tenant, r);
    }
  }

  lemma {:induction false} FinishOne(s: State, tenant: Text, r: Recorded)
    requires Inv(s) && Addressed(s, tenant, r).Some?
    ensures var x, ops := Addressed(s, tenant, r).value, s.operations;
            forall i, j :: i in ops && j in ops && Concerns(x, tenant, ops[i]) && Concerns(x, tenant, ops[j]) ==> i == j
  {
    var x, ops := Addressed(s, tenant, r).value, s.operations;
    hide Addressed, Concerns, NoGaps, ProfilesOk;
    forall i, j | i in ops && j in ops && Concerns(x, tenant, ops[i]) && Concerns(x, tenant, ops[j]) ensures i == j {
      ConcernsSlot(s, tenant, r, i);
      ConcernsSlot(s, tenant, r, j);
      assert SameSlot(ops[i], ops[j]);
    }
  }

  lemma {:induction false} FinishFound(ops: map<int, Stored>, tenant: Text, r: Recorded, id: int)
    requires id in ops && Concerns(r, tenant, ops[id])
    requires forall j :: j in ops && Concerns(r, tenant, ops[j]) ==> j == id
    ensures FinishAll(ops, tenant, r) == ops[id := ops[id].(op := ops[id].op.(status := r.status))]
  {
    hide Concerns;
    var a, b := FinishAll(ops, tenant, r), ops[id := ops[id].(op := ops[id].op.(status := r.status))];
    assert a.Keys == ops.Keys && b.Keys == ops.Keys;
    assert forall j :: j in ops ==> a[j] == b[j];
  }

  lemma {:induction false} FinishNone(ops: map<int, Stored>, tenant: Text, r: Recorded)
    requires forall j :: j in ops ==> !Concerns(r, tenant, ops[j])
    ensures FinishAll(ops, tenant, r) == ops
  {
    hide Concerns;
    var a := FinishAll(ops, tenant, r);
    assert a.Keys == ops.Keys;
    assert forall j :: j in ops ==> a[j] == ops[j];
  }
}
