/**
 An upload the eIM refuses as unknown. The device reads the error answer as an empty
 acknowledgement (mockipa/relay_client.go) and applies the operation all the same
 (mockipa/runner.go), while the eIM records nothing.
 */
module Refusal {
  import opened Octets
  import opened Tlv
  import opened EuiccPackage
  import opened Outcome
  import opened StoreState
  import opened Queue
  import opened Effects
  import opened Handler
  import opened Device
  import opened Redelivery
  import opened Exchange
  import opened Agreement
  import opened Runs
  import Notifications
  import Tags
  import R = PackageResult

  // ---- a refused upload changes nothing at the eIM ----

  lemma {:induction false} FirstMatchMember(ops: seq<Operation>, eimID: Text, counter: Int64, tx: Text)
    ensures var m := FirstMatch(ops, eimID, counter, tx); m.Found? ==> m.op in ops
  {
    hide Correlates, DecodeRequestBytes;
    if ops != [] {
      assert ops == [ops[0]] + ops[1..];
      FirstMatchMember(ops[1..], eimID, counter, tx);
    }
  }

  lemma {:induction false} CorrelateMember(s: State, k: Key, eimID: Text, counter: Int64, tx: Text)
    requires Inv(s)
    ensures var m := Correlate(s, k, eimID, counter, tx); m.Found? ==> m.op in QueueOf(s, k)
  {
    hide Inv, QueueOf, Fetched, Listed, FirstMatch;
    FetchedMember(s, k, WINDOW);
    FirstMatchMember(Fetched(s, k, WINDOW), eimID, counter, tx);
    FirstMatchMember(Listed(s, k, WINDOW), eimID, counter, tx);
  }

  lemma {:induction false} MatchMember(s: State, k: Key, result: R.Result)
    requires Inv(s)
    ensures var m := MatchResult(s, k, result); m.Found? ==> m.op in QueueOf(s, k)
  {
    hide Inv, QueueOf, Fetched, Correlate;
    FetchedMember(s, k, WINDOW);
    match result
    case ResultSigned(d, _) => CorrelateMember(s, k, d.eimID, d.counter, TextBytes(d.transactionID));
    case ErrorSigned(e, _) => CorrelateMember(s, k, e.eimID, e.counter, TextBytes(e.transactionID));
    case ErrorUnsigned(u) => CorrelateMember(s, k, u.eimID, 0, TextBytes(u.transactionID));
  }

  lemma {:induction false} KnownApplies(r: Records, k: Key, op: Operation, v: Verdict)
    requires !v.Rejected?
    ensures !EffectOf(true, r, k, op, v).1.Unknown?
  {
    hide DecodeRequestBytes, TokenFor, EimPut, Synced, Hex;
  }

  lemma {:induction false} CarriedKnows(env: Env, s: State, u: Upload, op: Operation, v: Verdict, notes: seq<Note>)
    requires Inv(s) && op in QueueOf(s, KeyIn(env)) && !v.Rejected? && NotesOk(env.eid, notes)
    requires u.notifications == if notes == [] then None else Some(Cons(Tags.C0, NoteTlvs(notes)))
    ensures !Carried(s, env.tenantID, env.eid, u, op, v).1.EidNotFound?
  {
    var k := KeyIn(env);
    MemberStored(s, k, op);
    CarriedQueue(s, env.tenantID, env.eid, u, op, v);
    RecordedNotes(s, env.tenantID, ResultOf(env.eid, op, v, u));
    var t := ResultRecorded(s, env.tenantID, ResultOf(env.eid, op, v, u)).0;
    KnownApplies(t.records, k, op, v);
    hide Inv, QueueOf, ResultRecorded, ResultOf, EffectOf, NotesOk, Notifications.Merged, Notifications.StoreList,
         NoteTlvs, ResultNumbers;
    NotesAnswered(t, k, u, notes);
  }

  /** The eIM answers that it does not know an upload exactly when no operation matches, and then keeps its state. */
  lemma {:induction false} NotFoundLeaves(env: Env, s: State, sent: Sent)
    requires Inv(s) && NotesOk(env.eid, sent.notes)
    ensures Uploaded(env, s, sent).1.EidNotFound? <==> MatchResult(s, KeyIn(env), sent.result).NoMatch?
    ensures Uploaded(env, s, sent).1.EidNotFound? ==> Uploaded(env, s, sent).0 == s
  {
    hide Inv, QueueOf, NotesOk, UploadTlv, DecodeUpload, MatchResult, Judge, Carried, R.ResultTlv, NoteTlvs;
    UploadDecodes(sent.result, sent.notes);
    var u := DecodeUpload(UploadTlv(sent.result, sent.notes)).value;
    MatchMember(s, KeyIn(env), sent.result);
    match Decide(s, KeyIn(env), u, env.verify)
    case Refuse(_) =>
    case Accept(op, v) => CarriedKnows(env, s, u, op, v, sent.notes);
  }

  // ---- what the device does all the same ----

  /** The operation leaves every association token of the device as it is. */
  predicate TokenIdle(op: Op, t: Tokens) {
    match op
    case EcoOp(AddEim(c)) => c.eimID == [] || TokenOf(t, c.eimID) == Some(AddToken(c))
    case EcoOp(UpdateEim(c)) => c.token.None? || c.eimID == [] || TokenOf(t, c.eimID) == c.token
    case EcoOp(DeleteEim(eimID)) => TokenOf(t, eimID).None?
    case _ => true
  }

  predicate EnabledIs(inv: Inventory, iccid: Text, on: bool) {
    iccid == [] || (Hex(iccid) in inv && inv[Hex(iccid)].enabled == on)
  }

  /** The operation leaves the ICCIDs, enabled states and fallback attributes of the device as they are. */
  predicate InventoryIdle(op: Op, inv: Inventory) {
    match op
    case PsmoOp(Enable(iccid, _)) => EnabledIs(inv, iccid, true)
    case PsmoOp(Disable(iccid)) => EnabledIs(inv, iccid, false)
    case PsmoOp(Delete(iccid)) => iccid == [] || Hex(iccid) !in inv
    case PsmoOp(SetFallback(iccid)) =>
      iccid == [] || (Hex(iccid) in inv && forall key :: key in inv ==> (inv[key].fallback <==> key == Hex(iccid)))
    case PsmoOp(UnsetFallback) => forall key :: key in inv ==> !inv[key].fallback
    case _ => true
  }

  lemma {:induction false} IdleTokens(d: Device, pkg: Package)
    ensures TokenIdle(Single(pkg), d.tokens) <==>
            forall id :: TokenOf(OperationApplied(d, pkg).tokens, id) == TokenOf(d.tokens, id)
  {
    var t, u := d.tokens, OperationApplied(d, pkg).tokens;
    match Single(pkg)
    case EcoOp(AddEim(c)) => assert c.eimID != [] ==> TokenOf(u, c.eimID) == Some(AddToken(c));
    case EcoOp(UpdateEim(c)) => assert c.token.Some? && c.eimID != [] ==> TokenOf(u, c.eimID) == c.token;
    case EcoOp(DeleteEim(eimID)) => assert TokenOf(u, eimID).None?;
    case _ =>
  }

  ghost predicate SameListing(a: Inventory, b: Inventory) {
    && (forall key :: key in a <==> key in b)
    && (forall key :: key in a ==> a[key].enabled == b[key].enabled && a[key].fallback == b[key].fallback)
  }

  lemma {:induction false} IdleEnabled(inv: Inventory, iccid: Text, on: bool)
    ensures EnabledIs(inv, iccid, on) <==> SameListing(inv, PsmoApplied(inv, iccid, on))
  {
    hide Hex;
    var b := PsmoApplied(inv, iccid, on);
    assert iccid != [] ==> Hex(iccid) in b && b[Hex(iccid)].enabled == on;
  }

  lemma {:induction false} IdleRemoved(inv: Inventory, iccid: Text)
    ensures iccid == [] || Hex(iccid) !in inv <==> SameListing(inv, Removed(inv, iccid))
  {
    hide Hex;
    assert iccid != [] ==> Hex(iccid) !in Removed(inv, iccid);
  }

  lemma {:induction false} IdleFallback(inv: Inventory, iccid: Text)
    ensures InventoryIdle(PsmoOp(SetFallback(iccid)), inv) <==> SameListing(inv, FallbackGiven(inv, iccid))
    ensures InventoryIdle(PsmoOp(UnsetFallback), inv) <==> SameListing(inv, Fallback(inv, None))
  {
    hide Hex;
    var b, c := FallbackGiven(inv, iccid), Fallback(inv, None);
    assert iccid != [] ==> Hex(iccid) in b && forall key :: key in b ==> (b[key].fallback <==> key == Hex(iccid));
    assert forall key :: key in c ==> !c[key].fallback;
  }

  lemma {:induction false} IdleInventory(d: Device, pkg: Package)
    ensures InventoryIdle(Single(pkg), d.profiles) <==> SameListing(d.profiles, OperationApplied(d, pkg).profiles)
  {
    assert SameListing(d.profiles, d.profiles);
    hide Hex, SameListing, EnabledIs, PsmoApplied, Removed, FallbackGiven, Fallback;
    match Single(pkg)
    case PsmoOp(Enable(iccid, _)) => IdleEnabled(d.profiles, iccid, true);
    case PsmoOp(Disable(iccid)) => IdleEnabled(d.profiles, iccid, false);
    case PsmoOp(Delete(iccid)) => IdleRemoved(d.profiles, iccid);
    case PsmoOp(SetFallback(iccid)) => IdleFallback(d.profiles, iccid);
    case PsmoOp(UnsetFallback) => IdleFallback(d.profiles, []);
    case _ =>
  }

  lemma {:induction false} TokensStayIff(m: Eims, k: Key, t: Tokens, u: Tokens)
    requires TokensAgree(m, k, t)
    ensures TokensAgree(m, k, u) <==> forall id :: TokenOf(u, id) == TokenOf(t, id)
  {
    hide TokenFor, TokenOf;
    if TokensAgree(m, k, u) {
      forall id ensures TokenOf(u, id) == TokenOf(t, id)
      {
        assert TokenFor(m, k, id) == Some(TokenOf(t, id)) == Some(TokenOf(u, id));
      }
    }
  }

  lemma {:induction false} InventoriesStayIff(m: Profiles, k: Key, a: Inventory, b: Inventory)
    requires InventoriesAgree(m, k, a)
    ensures InventoriesAgree(m, k, b) <==> SameListing(a, b)
  {
    forall key ensures SameProfile(m, k, a, key) {}
    if SameListing(a, b) { forall key ensures SameProfile(m, k, b, key) {} AgreeByKey(m, k, b); }
    if InventoriesAgree(m, k, b) { forall key ensures SameProfile(m, k, b, key) {} }
  }

  /**
   After an upload refused as unknown the two sides still agree on tokens, and on profiles,
   exactly when the operation was idle on the device.
   */
  lemma {:induction false} RefusedStayEqual(env: Env, s: State, sent: Sent)
    requires Inv(s) && NotesOk(env.eid, sent.notes) && Uploaded(env, s, sent).1.EidNotFound?
    requires TokensAgree(s.records.eims, KeyIn(env), sent.d.tokens)
    requires InventoriesAgree(s.records.profiles, KeyIn(env), sent.d.profiles)
    ensures var (t, reply) := Uploaded(env, s, sent);
            var after := Settled(sent, reply);
            && (TokensAgree(t.records.eims, KeyIn(env), after.tokens) <==> TokenIdle(Single(sent.pkg), sent.d.tokens))
            && (InventoriesAgree(t.records.profiles, KeyIn(env), after.profiles) <==>
               InventoryIdle(Single(sent.pkg), sent.d.profiles))
  {
    hide Inv, NotesOk, Uploaded, TokensAgree, InventoriesAgree, TokenIdle, InventoryIdle, OperationApplied,
         SameListing, TokenOf;
    NotFoundLeaves(env, s, sent);
    var after := OperationApplied(sent.d, sent.pkg);
    IdleTokens(sent.d, sent.pkg);
    IdleInventory(sent.d, sent.pkg);
    TokensStayIff(s.records.eims, KeyIn(env), sent.d.tokens, after.tokens);
    InventoriesStayIff(s.records.profiles, KeyIn(env), sent.d.profiles, after.profiles);
  }

  /** An eIM without records refuses the result of an addEim, and the device keeps the token it was given. */
  lemma {:induction false} RefusedAddEim(env: Env, result: R.Result, d: Device, c: EimConfig)
    requires d.tokens == map[] && c.eimID != []
    ensures Inv(Empty())
    ensures var sent := Sent(Ecos([AddEim(c)]), result, d, []);
            && Uploaded(env, Empty(), sent) == (Empty(), EidNotFound)
            && TokensAgree(Empty().records.eims, KeyIn(env), d.tokens)
            && !TokensAgree(Empty().records.eims, KeyIn(env), Settled(sent, EidNotFound).tokens)
  {
    var s, sent, k := Empty(), Sent(Ecos([AddEim(c)]), result, d, []), KeyIn(env);
    assert Inv(s) && QueueOf(s, k) == [];
    assert NotesOk(env.eid, []);
    MatchMember(s, k, result);
    NotFoundLeaves(env, s, sent);
    assert TokenOf(Settled(sent, EidNotFound).tokens, c.eimID) == Some(AddToken(c));
    assert TokenFor(s.records.eims, k, c.eimID) == Some(None);
  }
}
