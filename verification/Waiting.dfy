/** A pending operation near the front of its queue stays there while others come and finish. */
module Waiting {
  import opened Octets
  import opened EuiccPackage
  import opened StoreState
  import opened Queue
  import opened Handler
  import opened Signing

  lemma {:induction false} PendingAppend(a: seq<Operation>, b: seq<Operation>)
    ensures PendingOf(a + b) == PendingOf(a) + PendingOf(b)
    decreases |b|
  {
    if b == [] {
      assert a + b == a;
    } else {
      var n := |b| - 1;
      PendingAppend(a, b[..n]);
      assert (a + b)[..|a + b| - 1] == a + b[..n];
    }
  }

  /** How many operations are handed out before the one at position i. */
  function Rank(q: seq<Operation>, i: nat): (r: nat)
    requires i <= |q|
  {
    |PendingOf(q[..i])|
  }

  lemma {:induction false} PendingAt(q: seq<Operation>, i: nat)
    requires i < |q| && q[i].status == Pending
    ensures Rank(q, i) < |PendingOf(q)| && PendingOf(q)[Rank(q, i)] == q[i]
  {
    assert q == q[..i] + ([q[i]] + q[i + 1..]);
    PendingAppend(q[..i], [q[i]] + q[i + 1..]);
    PendingAppend([q[i]], q[i + 1..]);
    assert [q[i]][..0] == [];
    assert PendingOf([q[i]]) == [q[i]];
  }

  /** A pending operation is among the first ones exactly when few enough come before it. */
  lemma {:induction false} InTake(q: seq<Operation>, i: nat, limit: int)
    requires Increasing(q) && i < |q| && q[i].status == Pending && limit > 0
    ensures q[i] in Take(PendingOf(q), limit) <==> Rank(q, i) < limit
  {
    PendingAt(q, i);
    PendingIncreasing(q);
    hide PendingOf, Rank;
    var p := PendingOf(q);
    if q[i] in Take(p, limit) {
      var j :| 0 <= j < |Take(p, limit)| && Take(p, limit)[j] == q[i];
      assert p[j] == q[i];
    }
    if Rank(q, i) < limit { assert Take(p, limit)[Rank(q, i)] == q[i]; }
  }

  /** Finishing an operation brings nobody further back. */
  lemma {:induction false} RankStatus(q: seq<Operation>, n: int, status: Status, i: nat)
    requires i <= |q| && status != Pending
    ensures i <= |WithStatus(q, n, status)| && Rank(WithStatus(q, n, status), i) <= Rank(q, i)
  {
    var p := WithStatus(q, n, status);
    if i > 0 {
      RankStatus(q, n, status, i - 1);
      assert q[..i][..i - 1] == q[..i - 1] && p[..i][..i - 1] == p[..i - 1];
    }
  }

  /** What can happen to a queue without touching position i. */
  ghost predicate Onward(q: seq<Operation>, p: seq<Operation>, i: nat) {
    || p == q
    || (|p| > 0 && p == q + [p[|p| - 1]])
    || (exists n, status :: status != Pending && n != i + 1 && p == WithStatus(q, n, status))
  }

  lemma {:induction false} OnwardRank(q: seq<Operation>, p: seq<Operation>, i: nat)
    requires i < |q| && Onward(q, p, i)
    ensures i < |p| && p[i] == q[i] && Rank(p, i) <= Rank(q, i)
  {
    if |p| > 0 && p == q + [p[|p| - 1]] {
      assert p[..i] == q[..i];
    } else if n, status :| status != Pending && n != i + 1 && p == WithStatus(q, n, status) {
      RankStatus(q, n, status, i);
    }
  }

  lemma {:induction false} StaysFetched(s: State, t: State, k: Key, op: Operation, limit: int)
    requires Inv(s) && Inv(t) && limit > 0 && op in Fetched(s, k, limit)
    requires op.sequenceNumber >= 1 && Onward(QueueOf(s, k), QueueOf(t, k), op.sequenceNumber - 1)
    ensures op in Fetched(t, k, limit)
  {
    FetchedAt(s, k, op, limit);
    hide Inv, QueueOf, Onward, PendingOf, Rank, Increasing;
    var q, p, i := QueueOf(s, k), QueueOf(t, k), op.sequenceNumber - 1;
    QueueIncreasing(s, k);
    QueueIncreasing(t, k);
    InTake(q, i, limit);
    OnwardRank(q, p, i);
    InTake(p, i, limit);
  }

  lemma {:induction false} FetchedAt(s: State, k: Key, op: Operation, limit: int)
    requires Inv(s) && op in Fetched(s, k, limit)
    ensures op in QueueOf(s, k) && op.status == Pending
    ensures 1 <= op.sequenceNumber <= |QueueOf(s, k)| && QueueOf(s, k)[op.sequenceNumber - 1] == op
  {
    FetchedMember(s, k, limit);
    var q := QueueOf(s, k);
    hide Fetched, QueueOf, Inv;
    var i :| 0 <= i < |q| && q[i] == op;
    QueueElement(s, k, i);
  }

  // ---- events ----

  /** No result but the device's own is recorded for the operation. */
  predicate Spares(s: State, k: Key, op: Operation, e: Event) {
    e.Other? && e.call.Record? ==>
      var tenant := Tenant(e.call.tenantID);
      var x := Addressed(s, tenant, e.call.r);
      x.None? || Key(tenant, x.value.eid) != k || x.value.sequenceNumber != op.sequenceNumber
  }

  lemma {:induction false} RecordOnward(s: State, tenantID: Text, r: Recorded, k: Key, op: Operation)
    requires Inv(s) && Spares(s, k, op, Other(Record(tenantID, r))) && op.sequenceNumber >= 1
    ensures Inv(ResultRecorded(s, tenantID, r).0)
    ensures Onward(QueueOf(s, k), QueueOf(ResultRecorded(s, tenantID, r).0, k), op.sequenceNumber - 1)
  {
    RecordInv(s, tenantID, r);
    if ResultRecorded(s, tenantID, r).1 {
      QueueRecord(s, tenantID, r, k);
      var x := Addressed(s, Tenant(tenantID), r).value;
      assert x.status != Pending;
      hide Inv, QueueOf, ResultRecorded, Addressed, WithStatus;
    }
  }

  lemma {:induction false} EnqueueOnward(s: State, j: Key, kind: Kind, payload: seq<Octet>, k: Key, i: nat)
    requires Inv(s)
    ensures Inv(Enqueued(s, j, kind, payload).0)
            && Onward(QueueOf(s, k), QueueOf(Enqueued(s, j, kind, payload).0, k), i)
  {
    EnqueueInv(s, j, kind, payload);
    if j in s.devices {
      QueueEnqueue(s, j, kind, payload, k);
      hide Inv, QueueOf, Enqueued;
    }
  }

  lemma {:induction false} PlainOnward(s: State, c: Call, k: Key, i: nat)
    requires Inv(s) && Plain(c)
    ensures Inv(Step(s, c)) && Onward(QueueOf(s, k), QueueOf(Step(s, c), k), i)
  {
    hide Inv, QueueOf, Step;
    PlainQueue(s, c, k);
  }

  /** Whatever else happens, an operation that is among those handed out first stays among them. */
  lemma {:induction false} EventOnward(signer: Signer, w: World, e: Event, k: Key, op: Operation)
    requires Inv(w.s) && Spares(w.s, k, op, e) && op.sequenceNumber >= 1
    ensures Inv(WorldStep(signer, w, e).s)
    ensures Onward(QueueOf(w.s, k), QueueOf(WorldStep(signer, w, e).s, k), op.sequenceNumber - 1)
  {
    hide Inv, QueueOf, Onward, Spares, EncodeRequest;
    var i: nat := op.sequenceNumber - 1;
    match e
    case Other(call) =>
      if call.Record? {
        RecordOnward(w.s, call.tenantID, call.r, k, op);
      } else if call.Enqueue? {
        EnqueueOnward(w.s, call.k, call.kind, call.payload, k, i);
      } else {
        PlainOnward(w.s, call, k, i);
      }
    case SignPackage(j, input) =>
      SignedStates(signer, w.s, j, input);
      PlainOnward(w.s, TakeCounter(j), k, i);
      SameOnward(QueueOf(w.s, k), i);
      hide Sign;
    case Post(n) =>
      SameOnward(QueueOf(w.s, k), i);
      if 0 <= n < |w.outbox| {
        EnqueueOnward(w.s, w.outbox[n].k, EuiccPackageKind, EncodeRequest(w.outbox[n].request), k, i);
      }
  }

  lemma {:induction false} SameOnward(q: seq<Operation>, i: nat)
    ensures Onward(q, q, i)
  {
  }
}
