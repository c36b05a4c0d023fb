/** The operations of one device, in sequence order, as the store's contents determine them. */
module Queue {
  import opened Octets
  import opened StoreState

  ghost function OpAt(s: State, k: Key, n: int): (r: Operation)
    requires HasOp(s, k, n)
    ensures exists id :: id in s.operations && At(s.operations[id], k, n) && r == s.operations[id].op
  {
    var id :| id in s.operations && At(s.operations[id], k, n);
    s.operations[id].op
  }

  /** Operation n of device k stands at position n-1. */
  ghost function QueueOf(s: State, k: Key): (q: seq<Operation>)
    requires Inv(s)
    ensures |q| == if k in s.devices then s.devices[k].nextSequence - 1 else 0
  {
    if k in s.devices
    then seq(s.devices[k].nextSequence - 1, i requires 0 <= i < s.devices[k].nextSequence - 1 => OpAt(s, k, i + 1))
    else []
  }

  lemma {:induction false} QueueElement(s: State, k: Key, i: nat)
    requires Inv(s) && i < |QueueOf(s, k)|
    ensures var o := QueueOf(s, k)[i];
            && o.eid == k.eid && o.sequenceNumber == i + 1
            && o.id in s.operations && s.operations[o.id] == Stored(k.tenant, o)
  {
    var o := QueueOf(s, k)[i];
    assert o == OpAt(s, k, i + 1);
    var id :| id in s.operations && At(s.operations[id], k, i + 1) && o == s.operations[id].op;
    assert OpOk(s, id);
  }

  lemma {:induction false} QueueHas(s: State, id: int)
    requires Inv(s) && id in s.operations
    ensures var o := s.operations[id];
            var q := QueueOf(s, Owner(o));
            1 <= o.op.sequenceNumber <= |q| && q[o.op.sequenceNumber - 1] == o.op
  {
    var o := s.operations[id];
    assert OpOk(s, id);
    var q := QueueOf(s, Owner(o));
    var n := o.op.sequenceNumber;
    QueueElement(s, Owner(o), n - 1);
    var j := q[n - 1].id;
    hide QueueOf, NoGaps, OpsOk, ProfilesOk;
    assert SameSlot(s.operations[j], s.operations[id]);
  }

  /** Stores with the same operations and next sequence number for k have the same queue. */
  lemma {:induction false} QueueFrame(s: State, t: State, k: Key)
    requires Inv(s) && Inv(t)
    requires k in s.devices <==> k in t.devices
    requires k in s.devices ==> s.devices[k].nextSequence == t.devices[k].nextSequence
    requires forall id :: id in s.operations && Owner(s.operations[id]) == k ==>
             id in t.operations && t.operations[id] == s.operations[id]
    ensures QueueOf(s, k) == QueueOf(t, k)
  {
    var p, q := QueueOf(s, k), QueueOf(t, k);
    forall i | 0 <= i < |p| ensures p[i] == q[i] {
      QueueElement(s, k, i);
      QueueHas(t, p[i].id);
    }
  }

  lemma {:induction false} QueueEnqueue(s: State, k: Key, kind: Kind, payload: seq<Octet>, j: Key)
    requires Inv(s) && k in s.devices
    ensures var (t, op) := Enqueued(s, k, kind, payload);
            && op.Some? && Inv(t)
            && QueueOf(t, j) == if j == k then QueueOf(s, k) + [op.value] else QueueOf(s, j)
  {
    EnqueueInv(s, k, kind, payload);
    var (t, op) := Enqueued(s, k, kind, payload);
    assert s.nextID in s.operations ==> OpOk(s, s.nextID);
    if j == k {
      var p, q := QueueOf(s, k), QueueOf(t, k);
      forall i | 0 <= i < |q| ensures q[i] == (p + [op.value])[i] {
        if i < |p| {
          QueueElement(s, k, i);
          QueueHas(t, p[i].id);
        } else {
          QueueHas(t, s.nextID);
        }
      }
    } else {
      QueueFrame(s, t, j);
    }
  }

  /** The queue once operation n has got a status. */
  function WithStatus(q: seq<Operation>, n: int, status: Status): (r: seq<Operation>) {
    if 1 <= n <= |q| then q[n - 1 := q[n - 1].(status := status)] else q
  }

  lemma {:induction false} QueueRecord(s: State, tenantID: Text, r: Recorded, k: Key)
    requires Inv(s) && ResultRecorded(s, tenantID, r).1
    ensures Inv(ResultRecorded(s, tenantID, r).0)
    ensures var x := Addressed(s, Tenant(tenantID), r).value;
            QueueOf(ResultRecorded(s, tenantID, r).0, k) ==
            if k == Key(Tenant(tenantID), x.eid) then WithStatus(QueueOf(s, k), x.sequenceNumber, x.status)
            else QueueOf(s, k)
  {
    RecordInv(s, tenantID, r);
    var tenant := Tenant(tenantID);
    var t := ResultRecorded(s, tenantID, r).0;
    var x := Addressed(s, tenant, r).value;
    var p, q := QueueOf(s, k), QueueOf(t, k);
    assert t.operations == FinishAll(s.operations, tenant, x);
    FinishKeys(s.operations, tenant, x);
    hide Addressed, FinishAll, Concerns, QueueOf;
    forall i | 0 <= i < |p|
      ensures q[i] == if k == Key(tenant, x.eid) && i + 1 == x.sequenceNumber then p[i].(status := x.status) else p[i]
    {
      QueueElement(s, k, i);
      var id := p[i].id;
      ConcernsSlot(s, tenant, r, id);
      FinishKeepsPlaces(s, tenant, x, id);
      QueueHas(t, id);
    }
  }

  // ---- lists in sequence order ----

  predicate Increasing(q: seq<Operation>) {
    forall i, j :: 0 <= i < j < |q| ==> q[i].sequenceNumber < q[j].sequenceNumber
  }

  function PendingOf(q: seq<Operation>): (r: seq<Operation>) {
    if q == [] then []
    else
      var last := q[|q| - 1];
      PendingOf(q[..|q| - 1]) + if last.status == Pending then [last] else []
  }

  function Take(q: seq<Operation>, limit: int): (r: seq<Operation>) {
    if limit <= 0 then [] else if |q| > limit then q[..limit] else q
  }

  lemma {:induction false} PendingMembers(q: seq<Operation>)
    ensures forall o :: o in PendingOf(q) <==> o in q && o.status == Pending
  {
    if q != [] {
      PendingMembers(q[..|q| - 1]);
      assert q == q[..|q| - 1] + [q[|q| - 1]];
    }
  }

  lemma {:induction false} PendingIncreasing(q: seq<Operation>)
    requires Increasing(q)
    ensures Increasing(PendingOf(q))
  {
    if q != [] {
      var init := q[..|q| - 1];
      PendingIncreasing(init);
      PendingMembers(init);
      assert forall o :: o in init ==> o.sequenceNumber < q[|q| - 1].sequenceNumber;
      var p := PendingOf(init);
      assert forall i :: 0 <= i < |p| ==> p[i] in p;
    }
  }

  lemma {:induction false} QueueIncreasing(s: State, k: Key)
    requires Inv(s)
    ensures Increasing(QueueOf(s, k))
  {
    var q := QueueOf(s, k);
    forall i | 0 <= i < |q| ensures q[i].sequenceNumber == i + 1 { QueueElement(s, k, i); }
  }

  /** The last member of an increasing list is its greatest, and the others come before it. */
  lemma {:induction false} LastGreatest(q: seq<Operation>)
    requires Increasing(q) && q != []
    ensures var n := |q| - 1;
            && q[n] in q && Increasing(q[..n]) && q == q[..n] + [q[n]]
            && (forall o :: o in q[..n] <==> o in q && o != q[n])
            && (forall o :: o in q ==> o == q[n] || o.sequenceNumber < q[n].sequenceNumber)
  {
    assert q == q[..|q| - 1] + [q[|q| - 1]];
  }

  /** An increasing list is determined by its members. */
  lemma {:induction false} IncreasingUnique(p: seq<Operation>, q: seq<Operation>)
    requires Increasing(p) && Increasing(q) && forall o :: o in p <==> o in q
    ensures p == q
  {
    hide Increasing;
    assert q != [] ==> q[0] in p;
    assert p != [] ==> p[0] in q;
    if p != [] {
      LastGreatest(p);
      LastGreatest(q);
      IncreasingUnique(p[..|p| - 1], q[..|q| - 1]);
    }
  }

  /** FetchPendingOperations and ListOperations, as lists. */
  ghost function Fetched(s: State, k: Key, limit: int): (r: seq<Operation>)
    requires Inv(s)
  {
    Take(PendingOf(QueueOf(s, k)), limit)
  }

  ghost function Listed(s: State, k: Key, limit: int): (r: seq<Operation>)
    requires Inv(s)
  {
    Take(QueueOf(s, k), limit)
  }

  ghost predicate PendingFor(s: State, k: Key, o: Operation) {
    o.id in s.operations && s.operations[o.id] == Stored(k.tenant, o) && o.eid == k.eid && o.status == Pending
  }

  lemma {:induction false} PendingExactly(s: State, k: Key)
    requires Inv(s)
    ensures forall o :: o in PendingOf(QueueOf(s, k)) <==> PendingFor(s, k, o)
  {
    var q := QueueOf(s, k);
    PendingMembers(q);
    forall o ensures o in q && o.status == Pending <==> PendingFor(s, k, o) {
      hide QueueOf;
      if o in q {
        var i :| 0 <= i < |q| && q[i] == o;
        QueueElement(s, k, i);
      }
      if PendingFor(s, k, o) { QueueHas(s, o.id); }
    }
  }

  /**
   A fetch returns the device's lowest-numbered pending operations, strictly increasing,
   as many as the limit allows, and none of another tenant or device.
   */
  lemma {:induction false} FetchedLowest(s: State, k: Key, limit: int)
    requires Inv(s)
    ensures var r := Fetched(s, k, limit);
            && Increasing(r)
            && (forall o :: o in r ==> PendingFor(s, k, o))
            && (limit > 0 ==> |r| <= limit)
            && (forall o :: limit > 0 && PendingFor(s, k, o) && o !in r ==>
               |r| == limit && o.sequenceNumber > r[limit - 1].sequenceNumber)
  {
    var p := PendingOf(QueueOf(s, k));
    QueueIncreasing(s, k);
    PendingIncreasing(QueueOf(s, k));
    PendingExactly(s, k);
    hide QueueOf, PendingOf, PendingFor, Inv;
    var r := Fetched(s, k, limit);
    forall o | limit > 0 && PendingFor(s, k, o) && o !in r
      ensures |r| == limit && o.sequenceNumber > r[limit - 1].sequenceNumber {
      assert forall j :: 0 <= j < |r| ==> r[j] == p[j] && r[j] in r;
      var i :| 0 <= i < |p| && p[i] == o;
    }
  }
}
