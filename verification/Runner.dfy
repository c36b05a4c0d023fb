/** The device step by step (mockipa/device_view.go, mockipa/runner.go): maps, counters and a queue changed in place. */
module Runner {
  import opened Octets
  import opened EuiccPackage
  import opened ResultItems
  import opened Outcome
  import opened Handler
  import opened Device
  import opened Exchange

  // ---- DeviceState ----

  /** Every profile but those still to do has been given its attribute. */
  function Marked(m: Inventory, target: Option<Text>, todo: set<Text>): (r: Inventory) {
    map key | key in m :: if key in todo then m[key] else m[key].(fallback := target == Some(key))
  }

  lemma {:induction false} MarkedOne(m: Inventory, target: Option<Text>, todo: set<Text>, key: Text)
    requires key in todo && key in m
    ensures Marked(m, target, todo - {key}) == Marked(m, target, todo)[key := m[key].(fallback := target == Some(key))]
    ensures Marked(m, target, todo)[key] == m[key]
  {
    var a, b := Marked(m, target, todo - {key}),
      Marked(m, target, todo)[key := m[key].(fallback := target == Some(key))];
    assert a.Keys == b.Keys;
    assert forall k :: k in m ==> a[k] == b[k];
  }

  lemma {:induction false} MarkedEnds(m: Inventory, target: Option<Text>)
    ensures Marked(m, target, m.Keys) == m && Marked(m, target, {}) == Fallback(m, target)
  {
    assert Marked(m, target, m.Keys).Keys == m.Keys;
  }

  lemma {:induction false} InhabitedKeys(keys: set<Text>)
    requires keys != {}
    ensures exists key :: key in keys
  {
    assert (forall key :: key !in keys) ==> keys == {};
  }

  class DeviceState {
    var profiles: Inventory
    var tokens: Tokens

    constructor ()
      ensures profiles == map[] && tokens == map[]
    {
      profiles, tokens := map[], map[];
    }

    method AssociationToken(eimID: Text) returns (r: Option<Int64>)
      ensures r == TokenOf(tokens, eimID)
    {
      if eimID == [] { return None; }
      if eimID !in tokens { return None; }
      return Some(tokens[eimID]);
    }

    method SetAssociationToken(eimID: Text, token: Int64)
      modifies this`tokens
      ensures tokens == TokenSet(old(tokens), eimID, token)
    {
      if eimID == [] { return; }
      tokens := tokens[eimID := token];
    }

    method ClearAssociationToken(eimID: Text)
      modifies this`tokens
      ensures tokens == TokenCleared(old(tokens), eimID)
    {
      if eimID == [] { return; }
      tokens := tokens - {eimID};
    }

    method ApplyPsmo(iccid: Text, on: bool)
      modifies this`profiles
      ensures profiles == PsmoApplied(old(profiles), iccid, on)
    {
      if |iccid| == 0 { return; }
      var key := Hex(iccid);
      var record := if key in profiles then profiles[key] else Record([], [], false, false);
      profiles := profiles[key := record.(iccid := iccid, enabled := on)];
    }

    method Remove(iccid: Text)
      modifies this`profiles
      ensures profiles == Removed(old(profiles), iccid)
    {
      if |iccid| > 0 { profiles := profiles - {Hex(iccid)}; }
    }

    /** The walk over the map that both fallback methods make, in any order. */
    method Mark(target: Option<Text>)
      modifies this`profiles
      ensures profiles == Fallback(old(profiles), target)
    {
      ghost var was := profiles;
      MarkedEnds(was, target);
      var todo := profiles.Keys;
      hide Marked, Fallback;
      while todo != {}
        invariant todo <= was.Keys && profiles.Keys == was.Keys
        invariant profiles == Marked(was, target, todo)
        decreases |todo|
      {
        InhabitedKeys(todo);
        var key :| key in todo;
        MarkedOne(was, target, todo, key);
        profiles := profiles[key := profiles[key].(fallback := target == Some(key))];
        todo := todo - {key};
      }
    }

    method SetProfileFallback(iccid: Text)
      modifies this`profiles
      ensures profiles == FallbackGiven(old(profiles), iccid)
    {
      if |iccid| == 0 { return; }
      var key := Hex(iccid);
      Mark(Some(key));
      if key !in profiles { profiles := profiles[key := Record(iccid, [], false, true)]; }
    }

    method ClearProfileFallback()
      modifies this`profiles
      ensures profiles == Fallback(old(profiles), None)
    {
      Mark(None);
    }

    /** The profiles a listing reports, in the order of the walk. */
    method ListProfiles() returns (r: seq<ProfileInfo>, order: seq<Text>)
      ensures Enumerates(order, profiles) && r == Listing(profiles, order)
    {
      r, order := [], [];
      var todo := profiles.Keys;
      while todo != {}
        invariant todo <= profiles.Keys
        invariant forall key :: key in profiles <==> key in order || key in todo
        invariant forall key :: key in order ==> key in profiles && key !in todo
        invariant forall i, j :: 0 <= i < j < |order| ==> order[i] != order[j]
        invariant r == Listing(profiles, order)
        decreases |todo|
      {
        InhabitedKeys(todo);
        var key :| key in todo;
        var record := profiles[key];
        var state := if record.enabled then PROFILE_ENABLED else PROFILE_DISABLED;
        r := r + [ProfileInfo(Some(record.iccid), Some(state), record.fallback)];
        order := order + [key];
        todo := todo - {key};
      }
    }
  }

  // ---- Runner ----

  /** The in-place filter of acknowledgeNotifications: kept notifications move left over dropped ones. */
  method FilterInPlace(a: array<Note>, numbers: seq<int>) returns (n: nat)
    modifies a
    ensures n <= a.Length && a[..n] == Unacknowledged(old(a[..]), numbers)
  {
    ghost var was := a[..];
    n := 0;
    for i := 0 to a.Length
      invariant n <= i
      invariant a[..n] == Unacknowledged(was[..i], numbers)
      invariant a[i..] == was[i..]
    {
      assert a[i] == a[i..][0] && was[i] == was[i..][0];
      assert was[..i + 1][..i] == was[..i] && a[i..][1..] == a[i + 1..] && was[i..][1..] == was[i + 1..];
      UnacknowledgedLast(was[..i + 1], numbers);
      var notification := a[i];
      if notification.number !in numbers {
        ghost var kept := a[..n];
        a[n] := notification;
        assert a[..n + 1] == kept + [notification];
        n := n + 1;
      }
    }
    assert was[..a.Length] == was;
  }

  class Runner {
    const device: DeviceState
    var indirect: bool
    var nextNumber: int
    var pending: seq<Note>

    ghost function View(): (d: Device)
      reads this, device
    {
      Device(device.profiles, device.tokens, indirect, nextNumber, pending)
    }

    constructor (device: DeviceState)
      ensures this.device == device && View() == Device(device.profiles, device.tokens, false, 0, [])
    {
      this.device := device;
      indirect, nextNumber, pending := false, 0, [];
    }

    method NextNotificationSequence() returns (n: int)
      modifies this
      ensures n == NextNumber(old(View())) && View() == old(View()).(nextNumber := n + 1)
    {
      if nextNumber <= 0 { nextNumber := 1; }
      n := nextNumber;
      nextNumber := nextNumber + 1;
    }

    method QueueNotification(eid: Text, kind: Text, sign: seq<Octet> -> Text)
      requires NextNumber(View()) < INT64_LIMIT
      modifies this
      ensures View() == NoteQueued(old(View()), eid, kind, sign)
    {
      hide NoteTlv;
      var n := NextNotificationSequence();
      pending := pending + [Note(n, NoteTlv(eid, n, kind, sign))];
    }

    method AcknowledgeNotifications(numbers: seq<int>)
      modifies this
      ensures View() == old(View()).(pending := Unacknowledged(old(pending), numbers))
    {
      if |numbers| == 0 {
        UnacknowledgedIs(pending, numbers);
        return;
      }
      var notes := pending;
      var a := new Note[|notes|](i requires 0 <= i < |notes| => notes[i]);
      assert a[..] == notes;
      var n := FilterInPlace(a, numbers);
      pending := a[..n];
    }

    method ApplyOperationState(pkg: Package)
      modifies this, device
      ensures View() == OperationApplied(old(View()), pkg)
    {
      hide PsmoApplied, Removed, FallbackGiven, Fallback, TokenSet, TokenCleared, Hex;
      var op := Single(pkg);
      match op
      case PsmoOp(Enable(iccid, _)) => device.ApplyPsmo(iccid, true);
      case PsmoOp(Disable(iccid)) => device.ApplyPsmo(iccid, false);
      case PsmoOp(Delete(iccid)) => device.Remove(iccid);
      case PsmoOp(SetFallback(iccid)) => device.SetProfileFallback(iccid);
      case PsmoOp(UnsetFallback) => device.ClearProfileFallback();
      case EcoOp(AddEim(c)) =>
        indirect := c.indirectDownload;
        device.SetAssociationToken(c.eimID, AddToken(c));
      case EcoOp(UpdateEim(c)) =>
        indirect := c.indirectDownload;
        if c.token.Some? { device.SetAssociationToken(c.eimID, c.token.value); }
      case EcoOp(DeleteEim(eimID)) => device.ClearAssociationToken(eimID);
      case _ =>
    }

    /** handleEUICCPackage up to the upload. */
    method Prepare(env: Env, request: Request) returns (r: Option<Sent>, order: seq<Text>)
      requires NextNumber(View()) < INT64_LIMIT
      modifies this, device
      ensures Enumerates(order, old(View()).profiles)
      ensures r == Prepared(env, old(View()), request, order)
      ensures View() == if r.Some? then r.value.d else old(View())
    {
      hide ResultData, NoteTlv, SignedResult, NoteQueued;
      ghost var before := View();
      var _, walk := device.ListProfiles();
      order := walk;
      var result := SignedResult(Device(device.profiles, device.tokens, indirect, nextNumber, pending),
        request.signed, order, env.sign);
      if result.None? { return None, order; }
      var kind := NoteKind(request.signed.pkg);
      if kind.None? {
        return Some(Sent(request.signed.pkg, result.value,
          Device(device.profiles, device.tokens, indirect, nextNumber, pending), [])), order;
      }
      QueueNotification(env.eidBytes, kind.value, env.sign);
      return Some(Sent(request.signed.pkg, result.value,
        Device(device.profiles, device.tokens, indirect, nextNumber, pending), pending)), order;
    }

    /** handleEUICCPackage after the upload. */
    method Settle(sent: Sent, reply: Reply)
      requires View() == sent.d
      modifies this, device
      ensures View() == Settled(sent, reply)
    {
      hide OperationApplied, Unacknowledged;
      if reply.Faulted? { return; }
      ApplyOperationState(sent.pkg);
      if sent.notes != [] && reply.Ack? { AcknowledgeNotifications(reply.numbers); }
    }
  }
}
