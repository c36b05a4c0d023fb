/** The profile inventories of the eIM and the device over whole runs. */
module InventoryRuns {
  import opened Octets
  import opened EuiccPackage
  import opened Outcome
  import opened StoreState
  import opened Effects
  import opened Handler
  import opened Device
  import opened Signing
  import opened Exchange
  import opened Agreement
  import opened Runs

  ghost predicate InventoryInv(env: Env, sys: System) {
    InventoryOk(sys.d.profiles) && InventoriesAgree(sys.w.s.records.profiles, KeyIn(env), sys.d.profiles)
  }

  // ---- the device's own inventory ----

  /** No operation makes the device file a profile under another name than its ICCID's. */
  lemma {:induction false} OperationKeepsOk(d: Device, pkg: Package)
    requires InventoryOk(d.profiles)
    ensures InventoryOk(OperationApplied(d, pkg).profiles)
  {
    hide Hex;
  }

  lemma {:induction false} HappeningKeepsOk(env: Env, signer: Signer, sys: System, h: Happening)
    requires InventoryOk(sys.d.profiles)
    requires sys.flight.Some? ==> sys.flight.value.sent.d.profiles == sys.d.profiles
    ensures var now := Happened(env, signer, sys, h);
            InventoryOk(now.d.profiles) && (now.flight.Some? ==> now.flight.value.sent.d.profiles == now.d.profiles)
  {
    hide InventoryOk, WorldStep, Offer, Inv, Provided, UploadTlv, Selected, Polled, OperationApplied, Unacknowledged;
    match h
    case Outside(e) =>
    case Poll(order) =>
      if Departure(env, sys, order).Some? { var request := OfferParts(env, sys.w.s, sys.d, order); }
    case Deliver =>
      if sys.flight.Some? { OperationKeepsOk(sys.flight.value.sent.d, sys.flight.value.sent.pkg); }
  }

  lemma {:induction false} RunsKeepOk(env: Env, signer: Signer, sys: System, hs: seq<Happening>)
    requires InventoryOk(sys.d.profiles)
    requires sys.flight.Some? ==> sys.flight.value.sent.d.profiles == sys.d.profiles
    ensures InventoryOk(Ran(env, signer, sys, hs).d.profiles)
    decreases |hs|
  {
    hide InventoryOk, Happened;
    if hs != [] {
      HappeningKeepsOk(env, signer, sys, hs[0]);
      RunsKeepOk(env, signer, Happened(env, signer, sys, hs[0]), hs[1..]);
    }
  }

  // ---- one delivery ----

  /** What an accepted upload leaves on the two sides. */
  lemma {:induction false} DeliveryLeaves(env: Env, sys: System, hist: History)
    requires SystemInv(env, sys, hist) && sys.flight.Some? && Inv(sys.w.s)
    ensures var f := sys.flight.value; Enumerates(f.order, sys.d.profiles) && forall key :: key in f.order ==>
            key in sys.d.profiles
    ensures var f := sys.flight.value;
            var after := Delivered(env, sys, f.sent);
            && !Single(f.sent.pkg).NoOp? && f.sent.d == sys.d
            && after.d.profiles == OperationApplied(sys.d, f.sent.pkg).profiles
            && after.w.s.records ==
               PackageEffect(true, sys.w.s.records, KeyIn(env), f.sent.pkg,
                 ExpectedFor(f.sent.pkg, sys.d.profiles, f.order)).0
  {
    hide WorldInv, TokensAgree, NotesInv, KeysMatch, Inv, Provided, UploadTlv, Settled, OperationApplied,
         PackageEffect, ExpectedFor, PackageOk, PackageFits, Enumerates, SignedResult, SignedOp, DecodeRequestBytes,
         SendOk;
    DeliveryAccepted(env, sys, hist);
    var f := sys.flight.value;
    SettledNotes(f.sent, Uploaded(env, sys.w.s, f.sent).1);
  }

  /** After a completed listing the eIM's inventory equals the device's, whatever it held before. */
  lemma {:induction false} ListingCompletes(env: Env, sys: System, hist: History)
    requires SystemInv(env, sys, hist) && sys.flight.Some? && Inv(sys.w.s) && InventoryOk(sys.d.profiles)
    requires var op := Single(sys.flight.value.sent.pkg); op.PsmoOp? && op.psmo.ListProfileInfo?
    ensures InventoryInv(env, Delivered(env, sys, sys.flight.value.sent))
  {
    hide SystemInv, Inv, Delivered, InventoryOk, InventoriesAgree, Enumerates;
    DeliveryLeaves(env, sys, hist);
    var f := sys.flight.value;
    ExpectedIs(f.sent.pkg, sys.d.profiles, f.order);
    ListingEffect(sys.w.s.records, KeyIn(env), sys.d, f.sent.pkg, f.order);
    ListingSyncs(sys.w.s.records.profiles, KeyIn(env), sys.d.profiles, f.order);
  }

  lemma {:induction false} ListingEffect(r: Records, k: Key, d: Device, pkg: Package, order: seq<Text>)
    requires (forall key :: key in order ==> key in d.profiles) && Single(pkg).PsmoOp?
             && Single(pkg).psmo.ListProfileInfo?
    ensures PackageEffect(true, r, k, pkg, ExpectedFor(pkg, d.profiles, order)).0.profiles ==
            Synced(r.profiles, k, ViewsOf(Listing(d.profiles, order)))
    ensures OperationApplied(d, pkg).profiles == d.profiles
  {
    hide Synced, ViewsOf, Listing;
  }

  /** Once equal, the inventories stay equal through a delivery exactly when its package is ICCID-safe. */
  lemma {:induction false} DeliveryKeepsInventory(env: Env, sys: System, hist: History)
    requires SystemInv(env, sys, hist) && sys.flight.Some? && Inv(sys.w.s) && InventoryInv(env, sys)
    ensures InventoryInv(env, Delivered(env, sys, sys.flight.value.sent)) <==>
            IccidSafe(Single(sys.flight.value.sent.pkg))
  {
    hide SystemInv, Inv, Delivered, InventoryOk, InventoriesAgree, Enumerates, PackageEffect, OperationApplied,
         ExpectedFor, IccidSafe;
    DeliveryLeaves(env, sys, hist);
    var f := sys.flight.value;
    ExpectedIs(f.sent.pkg, sys.d.profiles, f.order);
    InventoryAfter(sys.w.s.records, KeyIn(env), sys.d, f.sent.pkg, f.order);
  }

  // ---- runs ----

  /** The packages whose results are delivered are ICCID-safe. */
  ghost predicate IccidsNamed(env: Env, signer: Signer, sys: System, hs: seq<Happening>)
    decreases |hs|
  {
    hs == [] ||
    ((hs[0].Deliver? && sys.flight.Some? ==> IccidSafe(Single(sys.flight.value.sent.pkg)))
     && IccidsNamed(env, signer, Happened(env, signer, sys, hs[0]), hs[1..]))
  }

  lemma {:induction false} InventoryStays(s: State, t: State, k: Key, inv: Inventory, foreign: set<int>)
    requires RecordsKept(s, t, k, foreign) && InventoriesAgree(s.records.profiles, k, inv)
    ensures InventoriesAgree(t.records.profiles, k, inv)
  {
    var a, b := s.records.profiles, t.records.profiles;
    forall key ensures SameProfile(b, k, inv, key) {
      var x: Slot<Text> := Slot(k, key);
      assert x.device == k;
    }
    AgreeByKey(b, k, inv);
  }

  lemma {:induction false} HappeningKeepsInventory(env: Env, signer: Signer, sys: System, h: Happening, hist: History)
    requires SystemInv(env, sys, hist) && InventoryInv(env, sys) && HappeningOk(env, sys, h)
    requires h.Deliver? && sys.flight.Some? ==> IccidSafe(Single(sys.flight.value.sent.pkg))
    ensures InventoryInv(env, Happened(env, signer, sys, h))
  {
    hide SystemInv, Offer, Delivered, WorldStep, Inv, InventoryOk, InventoriesAgree, IccidSafe, Leaves, EventOk,
         SendOk, Selected, Polled;
    match h
    case Outside(e) =>
      OutsideLeaves(env, signer, sys.w, e);
      InventoryStays(sys.w.s, WorldStep(signer, sys.w, e).s, KeyIn(env), sys.d.profiles, ForeignIn(KeyIn(env), e));
    case Poll(order) =>
      if Departure(env, sys, order).Some? { var request := OfferParts(env, sys.w.s, sys.d, order); }
    case Deliver =>
      if sys.flight.Some? && Inv(sys.w.s) { DeliveryKeepsInventory(env, sys, hist); }
  }

  /** Once equal, the two inventories stay equal through every run. */
  lemma {:induction false} RunsKeepInventories(env: Env, signer: Signer, sys: System, hs: seq<Happening>, hist: History)
    requires SystemInv(env, sys, hist) && InventoryInv(env, sys) && RunOk(env, signer, sys, hs)
             && IccidsNamed(env, signer, sys, hs)
    ensures InventoryInv(env, Ran(env, signer, sys, hs))
    decreases |hs|
  {
    hide SystemInv, InventoryInv, HappeningOk, Happened, Remembered, IccidSafe;
    if hs != [] {
      HappeningKeeps(env, signer, sys, hs[0], hist);
      HappeningKeepsInventory(env, signer, sys, hs[0], hist);
      RunsKeepInventories(env, signer, Happened(env, signer, sys, hs[0]), hs[1..], Remembered(env, sys, hs[0], hist));
    }
  }

  /** The result under way is that of a listing, and what happens after it is delivered is ICCID-safe. */
  ghost predicate ListingDelivered(env: Env, signer: Signer, mid: System, after: seq<Happening>) {
    && mid.flight.Some? && Single(mid.flight.value.sent.pkg).PsmoOp?
       && Single(mid.flight.value.sent.pkg).psmo.ListProfileInfo?
    && RunOk(env, signer, Happened(env, signer, mid, Deliver), after)
    && IccidsNamed(env, signer, Happened(env, signer, mid, Deliver), after)
  }

  lemma {:induction false} FromFresh(env: Env, signer: Signer, d: Device, before: seq<Happening>)
    returns (hist: History)
    requires KeysMatch(env) && d.tokens == map[] && d.pending == [] && InventoryOk(d.profiles)
    requires RunOk(env, signer, System(World(Empty(), []), d, None), before)
    ensures var mid := Ran(env, signer, System(World(Empty(), []), d, None), before);
            SystemInv(env, mid, hist) && Inv(mid.w.s) && InventoryOk(mid.d.profiles)
  {
    hide KeysMatch, InventoryOk, RunOk, Ran, Inv, WorldInv, TokensAgree, NotesInv, FlightOk, Recalled;
    var start := System(World(Empty(), []), d, None);
    hist := Recalled(env, signer, start, before, History([], {}));
    FreshAgree(env, d);
    RunsKeepAgreement(env, signer, start, before, History([], {}));
    RunsKeepOk(env, signer, start, before);
    WorldHasInv(Ran(env, signer, start, before).w);
  }

  lemma {:induction false} AfterTheListing(env: Env, signer: Signer, mid: System, after: seq<Happening>, hist: History)
    requires SystemInv(env, mid, hist) && Inv(mid.w.s) && InventoryOk(mid.d.profiles)
    requires ListingDelivered(env, signer, mid, after)
    ensures InventoryInv(env, Ran(env, signer, Happened(env, signer, mid, Deliver), after))
  {
    hide SystemInv, InventoryInv, InventoryOk, RunOk, IccidsNamed, Ran, Inv, Delivered;
    ListingCompletes(env, mid, hist);
    DeliverKeeps(env, mid, hist);
    RunsKeepInventories(env, signer, Happened(env, signer, mid, Deliver), after, hist);
  }

  /**
   An empty eIM and a fresh device, any run, a listing delivered, any ICCID-safe run: the
   inventories are equal.
   */
  lemma {:induction false} EqualFromTheListingOn(
    env: Env, signer: Signer, d: Device, before: seq<Happening>, after: seq<Happening>
  )
    requires KeysMatch(env) && d.tokens == map[] && d.pending == [] && InventoryOk(d.profiles)
    requires RunOk(env, signer, System(World(Empty(), []), d, None), before)
    requires ListingDelivered(env, signer, Ran(env, signer, System(World(Empty(), []), d, None), before), after)
    ensures var mid := Ran(env, signer, System(World(Empty(), []), d, None), before);
            InventoryInv(env, Ran(env, signer, Happened(env, signer, mid, Deliver), after))
  {
    hide *;
    var hist := FromFresh(env, signer, d, before);
    AfterTheListing(env, signer, Ran(env, signer, System(World(Empty(), []), d, None), before), after, hist);
  }
}
