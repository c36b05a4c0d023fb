/**
 The eIM's records of a device and the device's own state, changed separately by the
 same operation (euiccpkg/state.go and mockipa/runner.go): when they stay in agreement.
 */
module Agreement {
  import opened Octets
  import opened Tlv
  import opened EuiccPackage
  import opened ResultItems
  import opened Outcome
  import opened StoreState
  import opened Effects
  import opened Device
  import opened Answers
  import opened Exchange

  // ---- association tokens ----

  /** An added eIM, and an updated one that gets a token, has an ID. */
  predicate TokenSafe(op: Op) {
    match op
    case EcoOp(AddEim(c)) => c.eimID != []
    case EcoOp(UpdateEim(c)) => c.token.Some? ==> c.eimID != []
    case _ => true
  }

  lemma {:induction false} TokenElsewhere(m: Eims, k: Key, c: EimConfig, id: Text)
    requires id != c.eimID
    ensures TokenFor(EimPut(m, k, c), k, id) == TokenFor(m, k, id)
  {
    hide DecodeConfigBytes, EncodeConfig;
    assert Slot(k, id) != Slot(k, c.eimID);
  }

  lemma {:induction false} PutAgrees(m: Eims, k: Key, t: Tokens, c: EimConfig, u: Tokens)
    requires TokensAgree(m, k, t) && ConfigOk(c) && TokensFit(c)
    requires forall id :: id != c.eimID ==> TokenOf(u, id) == TokenOf(t, id)
    ensures TokensAgree(EimPut(m, k, c), k, u) <==> c.token == TokenOf(u, c.eimID)
  {
    assert c == c.(token := c.token);
    hide ConfigOk, TokenOf;
    TokenAfterPut(m, k, c);
    hide TokenFor, EimPut;
    forall id | id != c.eimID ensures TokenFor(EimPut(m, k, c), k, id) == Some(TokenOf(u, id))
    {
      TokenElsewhere(m, k, c, id);
    }
  }

  lemma {:induction false} DropAgrees(m: Eims, k: Key, t: Tokens, eimID: Text)
    requires TokensAgree(m, k, t)
    ensures TokensAgree(m - {Slot(k, eimID)}, k, TokenCleared(t, eimID))
  {
    hide DecodeConfigBytes;
    forall id ensures TokenFor(m - {Slot(k, eimID)}, k, id) == Some(TokenOf(TokenCleared(t, eimID), id)) {
      assert TokenFor(m, k, id) == Some(TokenOf(t, id));
    }
  }

  /** The two sides agree on every token after an accepted operation exactly when it is token-safe. */
  lemma {:induction false} EcoAgrees(r: Records, k: Key, d: Device, e: Eco, order: seq<Text>)
    requires (forall key :: key in order ==> key in d.profiles) && TokensAgree(r.eims, k, d.tokens) && EcoOk(e)
             && EcoFits(e)
    ensures TokensAgree(EcoEffect(true, r, k, e, Expected(EcoOp(e), d.profiles, order)).0.eims, k,
            OperationApplied(d, Ecos([e])).tokens)
            <==> TokenSafe(EcoOp(e))
  {
    hide TokensAgree, ConfigOk, Listing, TokenFor, EimPut, TokensFit;
    var v := Expected(EcoOp(e), d.profiles, order);
    match e
    case ListEim =>
    case DeleteEim(eimID) => DropAgrees(r.eims, k, d.tokens, eimID);
    case AddEim(c) =>
      var added := c.(token := Some(AddToken(c)));
      ConfigOkToken(c, Some(AddToken(c)));
      TokensFitToken(c, Some(AddToken(c)));
      PutAgrees(r.eims, k, d.tokens, added, TokenSet(d.tokens, c.eimID, AddToken(c)));
    case UpdateEim(c) =>
      if c.token.Some? {
        PutAgrees(r.eims, k, d.tokens, c, TokenSet(d.tokens, c.eimID, c.token.value));
      } else {
        assert TokenFor(r.eims, k, c.eimID) == Some(TokenOf(d.tokens, c.eimID)) by {
          TokensAt(r.eims, k, d.tokens, c.eimID);
        }
        var kept := c.(token := TokenOf(d.tokens, c.eimID));
        ConfigOkToken(c, kept.token);
        TokensFitToken(c, kept.token);
        PutAgrees(r.eims, k, d.tokens, kept, d.tokens);
      }
  }

  lemma {:induction false} TokensAt(m: Eims, k: Key, t: Tokens, id: Text)
    requires TokensAgree(m, k, t)
    ensures TokenFor(m, k, id) == Some(TokenOf(t, id))
  {
  }

  lemma {:induction false} TokensFitToken(c: EimConfig, t: Option<Int64>)
    requires TokensFit(c)
    ensures TokensFit(c.(token := t))
  {
    hide ConfigTlv, Fits;
    forall u: Option<Int64> ensures Fits(ConfigTlv(c.(token := t).(token := u))) {
      assert c.(token := t).(token := u) == c.(token := u);
    }
  }

  lemma {:induction false} PsmoKeepsTokens(r: Records, k: Key, d: Device, p: Psmo, v: Verdict)
    requires v.Ruled?
    ensures PsmoEffect(true, r, k, p, v).0.eims == r.eims && OperationApplied(d, Psmos([p])).tokens == d.tokens
  {
  }

  lemma {:induction false} AppliedBySingle(d: Device, pkg: Package, other: Package)
    requires Single(pkg) == Single(other)
    ensures OperationApplied(d, pkg) == OperationApplied(d, other)
  {
  }

  lemma {:induction false} TokensAfter(r: Records, k: Key, d: Device, pkg: Package, order: seq<Text>)
    requires (forall key :: key in order ==> key in d.profiles) && TokensAgree(r.eims, k, d.tokens)
    requires PackageOk(pkg) && PackageFits(pkg) && !Single(pkg).NoOp?
    ensures TokensAgree(PackageEffect(true, r, k, pkg, Expected(Single(pkg), d.profiles, order)).0.eims, k,
            OperationApplied(d, pkg).tokens)
            <==> TokenSafe(Single(pkg))
  {
    hide TokensAgree, PsmoEffect, EcoEffect, OperationApplied, EcoOk, EcoFits, PsmoOk, Expected;
    var v := Expected(Single(pkg), d.profiles, order);
    assert v.Ruled? by { ExpectedRules(Single(pkg), d.profiles, order); }
    match Single(pkg)
    case NoOp =>
    case PsmoOp(p) =>
      PsmoKeepsTokens(r, k, d, p, v);
      AppliedBySingle(d, pkg, Psmos([p]));
    case EcoOp(e) =>
      EcoAgrees(r, k, d, e, order);
      AppliedBySingle(d, pkg, Ecos([e]));
  }

  lemma {:induction false} ExpectedRules(op: Op, m: Inventory, order: seq<Text>)
    requires forall key :: key in order ==> key in m
    ensures Expected(op, m, order).Ruled? && Expected(op, m, order).ok
  {
  }

  /** An addEim with an empty eIM ID leaves the eIM with a token the device does not keep. */
  lemma {:induction false} EmptyEimIdDisagrees(r: Records, k: Key, d: Device, c: EimConfig)
    requires TokensAgree(r.eims, k, d.tokens) && ConfigOk(c) && TokensFit(c) && c.eimID == []
    ensures !TokensAgree(EcoEffect(true, r, k, AddEim(c), Ruled(true, Some(AddToken(c)), [])).0.eims, k,
            OperationApplied(d, Ecos([AddEim(c)])).tokens)
  {
    hide TokensAgree, ConfigOk;
    EcoAgrees(r, k, d, AddEim(c), []);
  }

  // ---- inventories ----

  /** The same ICCIDs, enabled states and fallback attributes. */
  ghost predicate InventoriesAgree(m: Profiles, k: Key, inv: Inventory) {
    && (forall key :: key in inv <==> Slot(k, key) in m)
    && (forall key :: key in inv ==>
                        && m[Slot(k, key)].enabled == inv[key].enabled
                        && m[Slot(k, key)].fallback == inv[key].fallback)
  }

  /** The device files each profile under the hexadecimal form of its ICCID. */
  ghost predicate InventoryOk(inv: Inventory) {
    forall key :: key in inv ==> inv[key].iccid != [] && key == Hex(inv[key].iccid)
  }

  lemma {:induction false} ViewsAll(ps: seq<ProfileInfo>)
    requires forall i :: 0 <= i < |ps| ==> ps[i].iccid.Some? && ps[i].iccid.value != []
    ensures |ViewsOf(ps)| == |ps|
    ensures forall i :: 0 <= i < |ps| ==>
            ViewsOf(ps)[i] == ProfileView(Hex(ps[i].iccid.value), ps[i].state == Some(PROFILE_ENABLED), ps[i].fallback)
  {
    hide Hex;
    if ps != [] { ViewsAll(ps[..|ps| - 1]); }
  }

  /** The views the eIM makes of the device's listing: the inventory, in the order of the walk. */
  lemma {:induction false} ListingViews(inv: Inventory, order: seq<Text>)
    requires InventoryOk(inv) && forall key :: key in order ==> key in inv
    ensures var views := ViewsOf(Listing(inv, order));
            && |views| == |order|
            && forall i :: 0 <= i < |order| ==>
               views[i] == ProfileView(order[i], inv[order[i]].enabled, inv[order[i]].fallback) && order[i] != []
  {
    var ps := Listing(inv, order);
    forall i | 0 <= i < |ps| ensures ps[i].iccid.Some? && ps[i].iccid.value != [] { assert order[i] in order; }
    ViewsAll(ps);
    hide ViewsOf;
    forall i | 0 <= i < |order| ensures order[i] != [] && Hex(ps[i].iccid.value) == order[i]
    {
      assert order[i] in order;
    }
  }

  /** With distinct ICCIDs each reported profile gets the state reported for it. */
  lemma {:induction false} OverlayDistinct(b: Profiles, was: Profiles, k: Key, views: seq<ProfileView>, i: nat)
    requires i < |views| && views[i].iccid != []
    requires forall a, c :: 0 <= a < c < |views| ==> views[a].iccid != views[c].iccid
    ensures var m, s := Overlay(b, was, k, views), Slot(k, views[i].iccid);
            s in m && m[s].enabled == views[i].enabled && m[s].fallback == views[i].fallback
  {
    var n := |views| - 1;
    if i < n {
      OverlayDistinct(b, was, k, views[..n], i);
      assert Slot(k, views[i].iccid) != Slot(k, views[n].iccid);
    }
  }

  predicate SameProfile(m: Profiles, k: Key, inv: Inventory, key: Text) {
    && (key in inv <==> Slot(k, key) in m)
    && (key in inv ==> m[Slot(k, key)].enabled == inv[key].enabled && m[Slot(k, key)].fallback == inv[key].fallback)
  }

  lemma {:induction false} SyncedKey(m: Profiles, k: Key, inv: Inventory, order: seq<Text>, key: Text)
    requires InventoryOk(inv) && Enumerates(order, inv)
    ensures SameProfile(Synced(m, k, ViewsOf(Listing(inv, order))), k, inv, key)
  {
    hide InventoryOk, ViewsOf, Listing, Overlay;
    var views := ViewsOf(Listing(inv, order));
    ListingViews(inv, order);
    OverlayAt(Others(m, k), Others(m, k), m, k, views, Slot(k, key));
    if key in inv {
      var i :| 0 <= i < |order| && order[i] == key;
      OverlayDistinct(Others(m, k), m, k, views, i);
    } else {
      assert !Effects.Reported(views, key);
    }
  }

  /** After a listing the eIM's inventory is the device's, whatever it held before. */
  lemma {:induction false} ListingSyncs(m: Profiles, k: Key, inv: Inventory, order: seq<Text>)
    requires InventoryOk(inv) && Enumerates(order, inv)
    ensures InventoriesAgree(Synced(m, k, ViewsOf(Listing(inv, order))), k, inv)
  {
    hide InventoryOk, Enumerates, ViewsOf, Listing, Synced;
    assert forall key :: key in order ==> key in inv by { EnumeratesKeys(order, inv); }
    hide SameProfile;
    forall key ensures SameProfile(Synced(m, k, ViewsOf(Listing(inv, order))), k, inv, key)
    {
      SyncedKey(m, k, inv, order, key);
    }
    AgreeByKey(Synced(m, k, ViewsOf(Listing(inv, order))), k, inv);
  }

  lemma {:induction false} AgreeByKey(m: Profiles, k: Key, inv: Inventory)
    requires forall key :: SameProfile(m, k, inv, key)
    ensures InventoriesAgree(m, k, inv)
  {
    forall key
      ensures key in inv <==> Slot(k, key) in m
      ensures key in inv ==>
                m[Slot(k, key)].enabled == inv[key].enabled && m[Slot(k, key)].fallback == inv[key].fallback
    {
      assert SameProfile(m, k, inv, key);
    }
  }

  /** Operations that name a profile name one with an ICCID; deleting no profile is harmless. */
  predicate IccidSafe(op: Op) {
    match op
    case PsmoOp(Enable(iccid, _)) => iccid != []
    case PsmoOp(Disable(iccid)) => iccid != []
    case PsmoOp(SetFallback(iccid)) => iccid != []
    case _ => true
  }

  lemma {:induction false} HexEmpty(iccid: Text)
    ensures Hex(iccid) == [] <==> iccid == []
  {
  }

  lemma {:induction false} EnableAgrees(m: Profiles, k: Key, inv: Inventory, iccid: Text, on: bool)
    requires InventoryOk(inv) && InventoriesAgree(m, k, inv)
    ensures InventoriesAgree(EnabledSet(m, k, Hex(iccid), on), k, PsmoApplied(inv, iccid, on)) <==> iccid != []
    ensures InventoryOk(PsmoApplied(inv, iccid, on))
  {
    HexEmpty(iccid);
    hide Hex;
    var a, b := EnabledSet(m, k, Hex(iccid), on), PsmoApplied(inv, iccid, on);
    if iccid == [] {
      assert Slot(k, Hex(iccid)) in a && Hex(iccid) !in b by {
        if Hex(iccid) in inv { HexEmpty(inv[Hex(iccid)].iccid); }
      }
    } else {
      forall key
        ensures key in b <==> Slot(k, key) in a
        ensures key in b ==> a[Slot(k, key)].enabled == b[key].enabled && a[Slot(k, key)].fallback == b[key].fallback
      {
        assert Slot(k, key) == Slot(k, Hex(iccid)) <==> key == Hex(iccid);
      }
    }
  }

  lemma {:induction false} DeleteAgrees(m: Profiles, k: Key, inv: Inventory, iccid: Text)
    requires InventoryOk(inv) && InventoriesAgree(m, k, inv)
    ensures InventoriesAgree(m - {Slot(k, Hex(iccid))}, k, Removed(inv, iccid)) && InventoryOk(Removed(inv, iccid))
  {
    HexEmpty(iccid);
    hide Hex;
    if iccid == [] && Hex(iccid) in inv { HexEmpty(inv[Hex(iccid)].iccid); }
    var a, b := m - {Slot(k, Hex(iccid))}, Removed(inv, iccid);
    forall key
      ensures key in b <==> Slot(k, key) in a
      ensures key in b ==> a[Slot(k, key)].enabled == b[key].enabled && a[Slot(k, key)].fallback == b[key].fallback
    {
      assert Slot(k, key) == Slot(k, Hex(iccid)) <==> key == Hex(iccid);
    }
  }

  lemma {:induction false} UnsetAgrees(m: Profiles, k: Key, inv: Inventory)
    requires InventoryOk(inv) && InventoriesAgree(m, k, inv)
    ensures InventoriesAgree(FallbackCleared(m, k), k, Fallback(inv, None)) && InventoryOk(Fallback(inv, None))
  {
    hide Hex;
  }

  lemma {:induction false} SetFallbackAgrees(m: Profiles, k: Key, inv: Inventory, iccid: Text)
    requires InventoryOk(inv) && InventoriesAgree(m, k, inv)
    ensures InventoriesAgree(FallbackSet(m, k, Hex(iccid)), k, FallbackGiven(inv, iccid)) <==> iccid != []
    ensures InventoryOk(FallbackGiven(inv, iccid))
  {
    HexEmpty(iccid);
    hide Hex;
    var a, b := FallbackSet(m, k, Hex(iccid)), FallbackGiven(inv, iccid);
    if iccid == [] {
      assert Slot(k, Hex(iccid)) in a && Hex(iccid) !in b by {
        if Hex(iccid) in inv { HexEmpty(inv[Hex(iccid)].iccid); }
      }
    } else {
      forall key
        ensures key in b <==> Slot(k, key) in a
        ensures key in b ==> a[Slot(k, key)].enabled == b[key].enabled && a[Slot(k, key)].fallback == b[key].fallback
      {
        assert Slot(k, key) == Slot(k, Hex(iccid)) <==> key == Hex(iccid);
      }
    }
  }

  /** Setting the fallback attribute leaves exactly one fallback profile, the named one, on both sides. */
  lemma {:induction false} OneFallback(m: Profiles, k: Key, inv: Inventory, iccid: Text)
    requires iccid != []
    ensures var a := FallbackSet(m, k, Hex(iccid));
            Slot(k, Hex(iccid)) in a && forall s :: s in a && s.device == k ==>
              (a[s].fallback <==> s.name == Hex(iccid))
    ensures var b := FallbackGiven(inv, iccid);
            Hex(iccid) in b && forall key :: key in b ==> (b[key].fallback <==> key == Hex(iccid))
  {
    hide Hex;
  }

  lemma {:induction false} PsmoInventory(r: Records, k: Key, d: Device, p: Psmo, order: seq<Text>)
    requires (forall key :: key in order ==> key in d.profiles)
    requires Enumerates(order, d.profiles) && InventoryOk(d.profiles) && InventoriesAgree(r.profiles, k, d.profiles)
    ensures var held := PsmoEffect(true, r, k, p, Expected(PsmoOp(p), d.profiles, order)).0.profiles;
            var after := OperationApplied(d, Psmos([p])).profiles;
            (InventoriesAgree(held, k, after) <==> IccidSafe(PsmoOp(p))) && InventoryOk(after)
  {
    hide InventoryOk, InventoriesAgree, EnabledSet, Synced, FallbackSet, FallbackCleared, Hex, PsmoApplied, Removed,
         FallbackGiven, Fallback, Enumerates, ViewsOf, Listing;
    match p
    case Enable(iccid, _) => EnableAgrees(r.profiles, k, d.profiles, iccid, true);
    case Disable(iccid) => EnableAgrees(r.profiles, k, d.profiles, iccid, false);
    case Delete(iccid) => DeleteAgrees(r.profiles, k, d.profiles, iccid);
    case ListProfileInfo(_) => ListingSyncs(r.profiles, k, d.profiles, order);
    case SetFallback(iccid) => SetFallbackAgrees(r.profiles, k, d.profiles, iccid);
    case UnsetFallback => UnsetAgrees(r.profiles, k, d.profiles);
    case _ =>
  }

  /**
   Once the inventories agree, an accepted operation keeps them in agreement exactly when
   it is ICCID-safe.
   */
  lemma {:induction false} InventoryAfter(r: Records, k: Key, d: Device, pkg: Package, order: seq<Text>)
    requires forall key :: key in order ==> key in d.profiles
    requires Enumerates(order, d.profiles) && InventoryOk(d.profiles) && InventoriesAgree(r.profiles, k, d.profiles)
             && !Single(pkg).NoOp?
    ensures var held := PackageEffect(true, r, k, pkg, Expected(Single(pkg), d.profiles, order)).0.profiles;
            var after := OperationApplied(d, pkg).profiles;
            (InventoriesAgree(held, k, after) <==> IccidSafe(Single(pkg))) && InventoryOk(after)
  {
    hide InventoryOk, InventoriesAgree, PsmoEffect, EcoEffect, OperationApplied, Enumerates, Expected;
    ExpectedRules(Single(pkg), d.profiles, order);
    match Single(pkg)
    case NoOp =>
    case PsmoOp(p) =>
      PsmoInventory(r, k, d, p, order);
      AppliedBySingle(d, pkg, Psmos([p]));
    case EcoOp(e) =>
      EcoKeepsProfiles(r, k, d, e, Expected(EcoOp(e), d.profiles, order));
      AppliedBySingle(d, pkg, Ecos([e]));
  }

  lemma {:induction false} EnumeratesKeys(order: seq<Text>, inv: Inventory)
    requires Enumerates(order, inv)
    ensures forall key :: key in order ==> key in inv
  {
  }

  lemma {:induction false} EcoKeepsProfiles(r: Records, k: Key, d: Device, e: Eco, v: Verdict)
    requires v.Ruled?
    ensures EcoEffect(true, r, k, e, v).0.profiles == r.profiles
            && OperationApplied(d, Ecos([e])).profiles == d.profiles
  {
    hide TokenFor, EncodeConfig;
  }
}
