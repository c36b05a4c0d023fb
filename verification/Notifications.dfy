/**
Pending notifications: their decoding (asn1/result.go), how the eIM stores a list of
 them, and the acknowledgement list it answers with (esipa/handler.go).
 */
module Notifications {
  import opened Octets
  import opened Tlv
  import opened Tags
  import opened Fields
  import opened StoreState
  import S = Store

  // ---- decoding ----

  datatype Metadata = Metadata(number: Int64, events: Option<seq<bool>>, address: Text)

  function DecodeMetadata(t: Tlv): (r: Option<Metadata>) {
    if t.tag != NOTIFICATION_META then None
    else
      var number :- RequiredInt(First(t, P0));
      var events :- BitsOf(First(t, P1));
      var address := First(t, UTF8);
      Some(Metadata(number, events, if address.Some? then ValueOf(address.value) else []))
  }

  /** findNotificationMetadata: the first metadata object, depth first. */
  function FindMetadata(t: Tlv): (r: Option<Tlv>)
    decreases t, 1
  {
    if t.tag == NOTIFICATION_META then Some(t) else if t.Cons? then FindMetadataIn(t.kids) else None
  }

  function FindMetadataIn(ts: seq<Tlv>): (r: Option<Tlv>)
    decreases ts, 0
  {
    if ts == [] then None
    else
      var found := FindMetadata(ts[0]);
      if found.Some? then found else FindMetadataIn(ts[1..])
  }

  // APPLICATION 15
  const AID: Tag := [0x4f]

  /** finalResultSucceeded: whether an outcome can be told from the final result. */
  function FinalResult(kids: seq<Tlv>): (r: Option<bool>)
    decreases kids
  {
    if kids == [] then None
    else
      var first := kids[0];
      if IsContextSpecific(first.tag) && TagNumber(first.tag) == 0 then Some(true)
      else if IsContextSpecific(first.tag) && TagNumber(first.tag) == 1 then Some(false)
      else if first.tag == SEQUENCE then if first.Cons? then FinalResult(first.kids) else None
      else if first.tag == AID then Some(true)
      else if first.tag == INTEGER then Some(false)
      else None
  }

  /** The metadata of a profile installation result; the outer option is the error. */
  function DecodeInstallation(t: Tlv): (r: Option<Option<Metadata>>) {
    var data :- First(t, PROFILE_INSTALL_DATA);
    var meta := First(data, NOTIFICATION_META);
    var final :- First(data, C2);
    var _ :- FinalResult(if final.Cons? then final.kids else []);
    if meta.None? then Some(None)
    else
      var m :- DecodeMetadata(meta.value);
      Some(Some(m))
  }

  predicate IsPendingTag(tag: Tag) { tag in [PROFILE_INSTALL, SEQUENCE, C0, C1] }

  datatype PendingNote = PendingNote(raw: Tlv, installed: bool, metadata: Option<Metadata>)

  function DecodePending(t: Tlv): (r: Option<PendingNote>) {
    if !IsPendingTag(t.tag) then None
    else
      var direct :- if t.tag == PROFILE_INSTALL then DecodeInstallation(t) else Some(None);
      Some(PendingNote(t, t.tag == PROFILE_INSTALL, direct))
  }

  function DecodePendingList(t: Tlv): (r: Option<seq<PendingNote>>) {
    if t.tag != C0 then None else DecodeAll(if t.Cons? then t.kids else [], DecodePending)
  }

  function MetadataOf(p: PendingNote): (r: Option<Metadata>) {
    if p.metadata.Some? then p.metadata
    else
      var t :- FindMetadata(p.raw);
      DecodeMetadata(t)
  }

  // "install", "enable", "disable", "delete", "unknown"
  const INSTALL: Text := [105, 110, 115, 116, 97, 108, 108]
  const ENABLE: Text := [101, 110, 97, 98, 108, 101]
  const DISABLE: Text := [100, 105, 115, 97, 98, 108, 101]
  const DELETE: Text := [100, 101, 108, 101, 116, 101]
  const UNKNOWN: Text := [117, 110, 107, 110, 111, 119, 110]

  predicate Has(events: seq<bool>, i: nat) { i < |events| && events[i] }

  function EventKind(m: Metadata): (r: Text) {
    match m.events
    case None => []
    case Some(e) =>
      if Has(e, 0) then INSTALL
      else if Has(e, 1) then ENABLE
      else if Has(e, 2) then DISABLE
      else if Has(e, 3) then DELETE
      else if e != [] then UNKNOWN
      else []
  }

  function KindOf(p: PendingNote): (r: Text) {
    var m := MetadataOf(p);
    if m.Some? && EventKind(m.value) != [] then EventKind(m.value) else if p.installed then INSTALL else UNKNOWN
  }

  /** notificationFromPending, for a known EID; without a sequence number it is an error. */
  function ToNotification(eid: Text, p: PendingNote): (r: Option<Notification>) {
    var m :- MetadataOf(p);
    Some(Notification(eid, m.number, KindOf(p), Write(p.raw)))
  }

  // ---- storing a list ----

  type Notes = map<Slot<int>, Notification>

  datatype Noted = Numbers(numbers: seq<int>) | NotKnown | Malformed

  /** recordNotificationsFromList after decoding: stops at the first notification that cannot be stored. */
  function StoreEach(known: bool, m: Notes, k: Key, ps: seq<PendingNote>): (r: (Notes, Noted)) {
    if ps == [] then (m, Numbers([]))
    else
      var (n, before) := StoreEach(known, m, k, ps[..|ps| - 1]);
      if !before.Numbers? then (n, before)
      else
        var note := ToNotification(k.eid, ps[|ps| - 1]);
        if note.None? then (n, Malformed)
        else if !known || note.value.sequenceNumber <= 0 then (n, NotKnown)
        else (n[Slot(k, note.value.sequenceNumber) := note.value],
          Numbers(before.numbers + [note.value.sequenceNumber]))
  }

  function StoreList(known: bool, m: Notes, k: Key, list: Option<Tlv>): (r: (Notes, Noted)) {
    if list.None? then (m, Numbers([]))
    else
      var ps := DecodePendingList(list.value);
      if ps.None? then (m, Malformed) else StoreEach(known, m, k, ps.value)
  }

  /** recordNotificationsFromList. */
  method RecordNotifications(store: S.Store, tenantID: Text, eid: Text, list: Option<Tlv>) returns (r: Noted)
    requires Inv(store.View())
    modifies store
    ensures Inv(store.View())
    ensures var s, k := old(store.View()), KeyOf(tenantID, eid);
            var (m, noted) := StoreList(k in s.devices, s.notifications, k, list);
            store.View() == s.(notifications := m) && r == noted
  {
    hide Inv, ToNotification, DecodePendingList, StoreEach;
    ghost var s, k := store.View(), KeyOf(tenantID, eid);
    ghost var known := k in s.devices;
    if list.None? { return Numbers([]); }
    var decoded := DecodePendingList(list.value);
    if decoded.None? { return Malformed; }
    var ps := decoded.value;
    var numbers: seq<int> := [];
    StoreNone(known, s.notifications, k);
    assert ps[..0] == [];
    for i := 0 to |ps|
      invariant Inv(store.View())
      invariant store.View() == s.(notifications := StoreEach(known, s.notifications, k, ps[..i]).0)
      invariant StoreEach(known, s.notifications, k, ps[..i]).1 == Numbers(numbers)
    {
      StoreNext(known, s.notifications, k, ps, i);
      NoteEid(eid, ps[i]);
      var notification := ToNotification(eid, ps[i]);
      if notification.None? {
        StoreStops(known, s.notifications, k, ps, i + 1);
        return Malformed;
      }
      var ok := store.StoreNotification(tenantID, notification.value);
      if !ok {
        StoreStops(known, s.notifications, k, ps, i + 1);
        return NotKnown;
      }
      numbers := numbers + [notification.value.sequenceNumber];
    }
    assert ps[..|ps|] == ps;
    return Numbers(numbers);
  }

  lemma {:induction false} StoreNone(known: bool, m: Notes, k: Key)
    ensures StoreEach(known, m, k, []) == (m, Numbers([]))
  {
  }

  lemma {:induction false} StoreNext(known: bool, m: Notes, k: Key, ps: seq<PendingNote>, i: nat)
    requires i < |ps| && StoreEach(known, m, k, ps[..i]).1.Numbers?
    ensures var (n, before) := StoreEach(known, m, k, ps[..i]);
            var note := ToNotification(k.eid, ps[i]);
            StoreEach(known, m, k, ps[..i + 1]) ==
            if note.None? then (n, Malformed)
            else if !known || note.value.sequenceNumber <= 0 then (n, NotKnown)
            else (n[Slot(k, note.value.sequenceNumber) := note.value],
              Numbers(before.numbers + [note.value.sequenceNumber]))
  {
    hide ToNotification;
    assert ps[..i + 1][..i] == ps[..i];
  }

  lemma {:induction false} NoteEid(eid: Text, p: PendingNote)
    ensures ToNotification(eid, p).Some? ==> ToNotification(eid, p).value.eid == eid
  {
  }

  lemma {:induction false} StoreStops(known: bool, m: Notes, k: Key, ps: seq<PendingNote>, n: nat)
    requires n <= |ps| && !StoreEach(known, m, k, ps[..n]).1.Numbers?
    ensures StoreEach(known, m, k, ps) == StoreEach(known, m, k, ps[..n])
    decreases |ps|
  {
    if n < |ps| {
      assert ps[..|ps| - 1][..n] == ps[..n];
      StoreStops(known, m, k, ps[..|ps| - 1], n);
    } else {
      assert ps[..n] == ps;
    }
  }

  predicate NumberedBy(k: Key, p: PendingNote, n: int) {
    var note := ToNotification(k.eid, p);
    note.Some? && note.value.sequenceNumber == n
  }

  /** The last notification of the list with this number. */
  predicate LastWith(k: Key, ps: seq<PendingNote>, i: int, n: int)
    requires 0 <= i < |ps|
  {
    NumberedBy(k, ps[i], n) && forall j :: i < j < |ps| ==> !NumberedBy(k, ps[j], n)
  }

  /** Under number n the store holds the last notification of the list with that number, whole. */
  ghost predicate HoldsLast(k: Key, ps: seq<PendingNote>, m: Notes, n: int) {
    && Slot(k, n) in m
    && exists i :: 0 <= i < |ps| && LastWith(k, ps, i, n) && ToNotification(k.eid, ps[i]) == Some(m[Slot(k, n)])
  }

  lemma {:induction false} LastAppended(k: Key, ps: seq<PendingNote>, p: PendingNote, m: Notes, n: int)
    requires !NumberedBy(k, p, n) && HoldsLast(k, ps, m, n)
    ensures HoldsLast(k, ps + [p], m, n)
  {
    hide NumberedBy, ToNotification;
    var i :| 0 <= i < |ps| && LastWith(k, ps, i, n) && ToNotification(k.eid, ps[i]) == Some(m[Slot(k, n)]);
    assert (ps + [p])[i] == ps[i];
    assert LastWith(k, ps + [p], i, n);
  }

  /**
   The numbers returned are those of the list; under each the store holds the last
   notification of the list with that number; no other slot changes.
   */
  lemma {:induction false} ReturnedAreStored(known: bool, m: Notes, k: Key, ps: seq<PendingNote>)
    ensures var (n, r) := StoreEach(known, m, k, ps);
            && m.Keys <= n.Keys
            && (r.Numbers? ==>
                  && |r.numbers| == |ps| && (forall i :: 0 <= i < |ps| ==> NumberedBy(k, ps[i], r.numbers[i]))
                  && (forall x :: x in r.numbers ==> x > 0 && HoldsLast(k, ps, n, x))
                  && (forall s :: s in m && !(s.device == k && s.name in r.numbers) ==> n[s] == m[s]))
  {
    hide ToNotification, StoreEach, HoldsLast;
    if ps == [] {
      StoreNone(known, m, k);
    } else {
      var l := |ps| - 1;
      assert ps[..l + 1] == ps && ps == ps[..l] + [ps[l]];
      ReturnedAreStored(known, m, k, ps[..l]);
      var (before, q) := StoreEach(known, m, k, ps[..l]);
      if q.Numbers? {
        StoreNext(known, m, k, ps, l);
        var (n, r) := StoreEach(known, m, k, ps);
        if r.Numbers? {
          var y := ToNotification(k.eid, ps[l]).value.sequenceNumber;
          forall x | x in r.numbers ensures x > 0 && HoldsLast(k, ps, n, x) {
            StoredAfter(k, ps, before, n, x, y);
          }
        }
      } else {
        StoreStops(known, m, k, ps, l);
      }
    }
  }

  lemma {:induction false} StoredAfter(k: Key, ps: seq<PendingNote>, before: Notes, n: Notes, x: int, y: int)
    requires ps != [] && NumberedBy(k, ps[|ps| - 1], y) && y > 0
    requires n == before[Slot(k, y) := ToNotification(k.eid, ps[|ps| - 1]).value]
    requires x != y ==> x > 0 && HoldsLast(k, ps[..|ps| - 1], before, x)
    ensures x > 0 && HoldsLast(k, ps, n, x)
  {
    hide ToNotification;
    var l := |ps| - 1;
    assert ps == ps[..l] + [ps[l]];
    if x == y {
      assert LastWith(k, ps, l, x);
    } else {
      assert HoldsLast(k, ps[..l], n, x) by { assert n[Slot(k, x)] == before[Slot(k, x)]; }
      LastAppended(k, ps[..l], ps[l], n, x);
    }
  }

  lemma {:induction false} StoreAt(known: bool, a: Notes, b: Notes, k: Key, ps: seq<PendingNote>, s: Slot<int>)
    ensures var (x, n), (y, o) := StoreEach(known, a, k, ps), StoreEach(known, b, k, ps);
            && n == o
            && ((s in x && s in y && x[s] == y[s])
               || ((s in x <==> s in a) && (s in a ==> x[s] == a[s]) && (s in y <==> s in b)
                  && (s in b ==> y[s] == b[s])))
  {
    if ps != [] {
      hide ToNotification, StoreEach;
      var n := |ps| - 1;
      assert ps[..n + 1] == ps;
      StoreAt(known, a, b, k, ps[..n], s);
      if StoreEach(known, a, k, ps[..n]).1.Numbers? {
        StoreNext(known, a, k, ps, n);
        StoreNext(known, b, k, ps, n);
      } else {
        StoreStops(known, a, k, ps, n);
        StoreStops(known, b, k, ps, n);
      }
    } else {
      StoreNone(known, a, k);
      StoreNone(known, b, k);
    }
  }

  /** Storing the same list again changes nothing and answers the same. */
  lemma {:induction false} StoreTwice(known: bool, m: Notes, k: Key, list: Option<Tlv>)
    ensures StoreList(known, StoreList(known, m, k, list).0, k, list) == StoreList(known, m, k, list)
  {
    if list.Some? && DecodePendingList(list.value).Some? {
      var ps := DecodePendingList(list.value).value;
      var (n, r) := StoreEach(known, m, k, ps);
      var (o, q) := StoreEach(known, n, k, ps);
      forall s ensures (s in o <==> s in n) && (s in n ==> o[s] == n[s]) { StoreAt(known, m, n, k, ps, s); }
      assert o == n;
      StoreAt(known, m, n, k, ps, Slot(k, 0));
    }
  }

  // ---- acknowledgements ----

  /** additions appended to existing, each unless it is already there. */
  function Merged(existing: seq<int>, additions: seq<int>): (r: seq<int>) {
    if additions == [] then existing
    else
      var init, last := Merged(existing, additions[..|additions| - 1]), additions[|additions| - 1];
      if last in init then init else init + [last]
  }

  method AppendAckSequences(existing: seq<int>, additions: seq<int>) returns (r: seq<int>)
    ensures r == Merged(existing, additions)
  {
    r := existing;
    for i := 0 to |additions|
      invariant r == Merged(existing, additions[..i])
    {
      assert additions[..i + 1][..i] == additions[..i];
      var seen := false;
      for j := 0 to |r|
        invariant seen == (additions[i] in r[..j])
      {
        if r[j] == additions[i] {
          seen := true;
          break;
        }
      }
      if !seen { r := r + [additions[i]]; }
    }
    assert additions[..|additions|] == additions;
  }

  predicate Unique(q: seq<int>) { forall i, j :: 0 <= i < j < |q| ==> q[i] != q[j] }

  /** No duplicates are added, nothing is lost, and nothing else appears. */
  lemma {:induction false} MergedOk(existing: seq<int>, additions: seq<int>)
    ensures var r := Merged(existing, additions);
            && existing <= r
            && (Unique(existing) ==> Unique(r))
            && forall x :: x in r <==> x in existing || x in additions
  {
    if additions != [] {
      var n := |additions| - 1;
      MergedOk(existing, additions[..n]);
      assert additions == additions[..n] + [additions[n]];
    }
  }
}
