/** euiccpkg/state.go step by step: the methods that read the store and overwrite its records. */
module Apply {
  import opened Octets
  import opened EuiccPackage
  import opened Outcome
  import opened StoreState
  import opened Effects
  import S = Store

  function WithProfiles(s: State, m: Profiles): (r: State) { s.(records := s.records.(profiles := m)) }

  method SetProfileEnabled(store: S.Store, tenantID: Text, eid: Text, iccid: Text, on: bool) returns (e: Effect)
    requires Inv(store.View())
    modifies store
    ensures Inv(store.View())
    ensures var s, k := old(store.View()), KeyOf(tenantID, eid);
            if k in s.devices then e == Applied && store.View() ==
              WithProfiles(s, EnabledSet(s.records.profiles, k, iccid, on))
            else e == Unknown && store.View() == s
  {
    hide Inv;
    var state := store.GetProfileState(tenantID, eid, iccid);
    var p := if state.Some? then state.value else Profile(eid, iccid, false, false, []);
    var ok := store.SetProfileState(tenantID, p.(eid := eid, iccid := iccid, enabled := on));
    e := if ok then Applied else Unknown;
  }

  // ---- syncProfileInventory ----

  /** The map the listed profiles are put in. */
  ghost predicate Indexes(index: map<Text, Profile>, listed: seq<Profile>) {
    && (forall p :: p in listed ==> p.iccid in index && index[p.iccid] == p)
    && (forall t :: t in index ==> index[t] in listed && index[t].iccid == t)
  }

  method IndexProfiles(listed: seq<Profile>) returns (index: map<Text, Profile>)
    requires forall i, j :: 0 <= i < j < |listed| ==> listed[i].iccid != listed[j].iccid
    ensures Indexes(index, listed)
  {
    index := map[];
    for i := 0 to |listed|
      invariant Indexes(index, listed[..i])
    {
      assert listed[..i + 1] == listed[..i] + [listed[i]];
      assert forall p :: p in listed[..i] ==> p.iccid != listed[i].iccid;
      index := index[listed[i].iccid := listed[i]];
    }
    assert listed[..|listed|] == listed;
  }

  lemma {:induction false} IndexedSmdp(
    index: map<Text, Profile>, listed: seq<Profile>, m: Profiles, k: Key, iccid: Text
  )
    requires Indexes(index, listed) && S.ListsProfiles(listed, m, k)
    requires forall s :: s in m && s.device == k ==> m[s].iccid == s.name
    ensures ProfileOr(m, k, iccid).smdp == if iccid in index then index[iccid].smdp else []
  {
    if iccid in index {
      assert S.HasProfile(m, k, index[iccid]);
    }
    if Slot(k, iccid) in m {
      assert S.HasProfile(m, k, m[Slot(k, iccid)]);
    }
  }

  ghost predicate Seen(seen: set<Text>, views: seq<ProfileView>) {
    forall t :: t in seen <==> Reported(views, t)
  }

  lemma {:induction false} SeenNext(seen: set<Text>, views: seq<ProfileView>, i: nat)
    requires i < |views| && Seen(seen, views[..i])
    ensures views[i].iccid == [] ==> Seen(seen, views[..i + 1])
    ensures views[i].iccid != [] ==> Seen(seen + {views[i].iccid}, views[..i + 1])
  {
    forall t ensures Reported(views[..i + 1], t) <==> (t != [] && views[i].iccid == t) || Reported(views[..i], t) {
      assert forall j :: 0 <= j < i ==> views[..i][j] == views[..i + 1][j];
      assert views[..i + 1][i] == views[i];
    }
  }

  function Names(listed: seq<Profile>): (r: set<Text>) {
    if listed == [] then {} else Names(listed[..|listed| - 1]) + {listed[|listed| - 1].iccid}
  }

  lemma {:induction false} NamesHas(listed: seq<Profile>, t: Text)
    ensures t in Names(listed) <==> exists i :: 0 <= i < |listed| && listed[i].iccid == t
  {
    if listed != [] {
      var n := |listed| - 1;
      NamesHas(listed[..n], t);
      assert forall i :: 0 <= i < n ==> listed[..n][i] == listed[i];
    }
  }

  /** The names listed are the names the device has a profile under. */
  lemma {:induction false} NamesOf(listed: seq<Profile>, m: Profiles, k: Key, t: Text)
    requires S.ListsProfiles(listed, m, k)
    requires forall s :: s in m && s.device == k ==> m[s].iccid == s.name
    ensures t in Names(listed) <==> Slot(k, t) in m
  {
    hide Names;
    NamesHas(listed, t);
    if Slot(k, t) in m {
      assert S.HasProfile(m, k, m[Slot(k, t)]);
    }
    if i :| 0 <= i < |listed| && listed[i].iccid == t {
      assert S.HasProfile(m, k, listed[i]);
    }
  }

  function Dropped(m: Profiles, k: Key, listed: seq<Profile>, seen: set<Text>): (r: Profiles) {
    if listed == [] then m
    else
      var p := listed[|listed| - 1];
      var init := Dropped(m, k, listed[..|listed| - 1], seen);
      if p.iccid in seen then init else init - {Slot(k, p.iccid)}
  }

  lemma {:induction false} DroppedAt(m: Profiles, k: Key, listed: seq<Profile>, seen: set<Text>, s: Slot<Text>)
    ensures var d := Dropped(m, k, listed, seen);
            && (s in d ==> s in m && d[s] == m[s])
            && (s in d <==> s in m && !(s.device == k && s.name !in seen && s.name in Names(listed)))
  {
    if listed != [] {
      var n := |listed| - 1;
      DroppedAt(m, k, listed[..n], seen, s);
    }
  }

  /** Writing the reported profiles and then dropping the others leaves exactly the reported ones. */
  lemma {:induction false} SyncResult(
    m: Profiles, k: Key, views: seq<ProfileView>, listed: seq<Profile>, seen: set<Text>
  )
    requires Seen(seen, views) && S.ListsProfiles(listed, m, k)
    requires forall s :: s in m && s.device == k ==> m[s].iccid == s.name
    ensures Dropped(Overlay(m, m, k, views), k, listed, seen) == Synced(m, k, views)
  {
    var a, b := Dropped(Overlay(m, m, k, views), k, listed, seen), Synced(m, k, views);
    forall s ensures (s in a <==> s in b) && (s in a ==> a[s] == b[s]) {
      SyncSlot(m, k, views, listed, seen, s);
    }
  }

  lemma {:induction false} SyncSlot(
    m: Profiles, k: Key, views: seq<ProfileView>, listed: seq<Profile>, seen: set<Text>, s: Slot<Text>
  )
    requires Seen(seen, views) && S.ListsProfiles(listed, m, k)
    requires forall s :: s in m && s.device == k ==> m[s].iccid == s.name
    ensures var a, b := Dropped(Overlay(m, m, k, views), k, listed, seen), Synced(m, k, views);
            (s in a <==> s in b) && (s in a ==> a[s] == b[s])
  {
    DroppedAt(Overlay(m, m, k, views), k, listed, seen, s);
    OverlayAt(m, Others(m, k), m, k, views, s);
    OverlayAt(Others(m, k), m, m, k, views, s);
    hide Overlay, Dropped, Reported, Names;
    NamesOf(listed, m, k, s.name);
  }

  method SyncProfileInventory(store: S.Store, tenantID: Text, eid: Text, views: seq<ProfileView>) returns (e: Effect)
    requires Inv(store.View())
    modifies store
    ensures Inv(store.View())
    ensures var s, k := old(store.View()), KeyOf(tenantID, eid);
            if k in s.devices then e == Applied && store.View() == WithProfiles(s, Synced(s.records.profiles, k, views))
            else e == Unknown && store.View() == s
  {
    ghost var s, k := store.View(), KeyOf(tenantID, eid);
    ghost var m := s.records.profiles;
    assert forall x :: x in m && x.device == k ==> m[x].iccid == x.name;
    hide Inv, Overlay, Dropped, Synced, Indexes, Seen;
    var listed := store.ListProfileStates(tenantID, eid);
    if listed.None? { return Unknown; }
    var existing := listed.value;
    var index := IndexProfiles(existing);
    var seen: set<Text> := {};
    NothingSeen();
    OverlayNone(m, m, k);
    assert views[..0] == [];
    for i := 0 to |views|
      invariant Inv(store.View())
      invariant store.View() == WithProfiles(s, Overlay(m, m, k, views[..i]))
      invariant Seen(seen, views[..i])
    {
      var profile := views[i];
      SeenNext(seen, views, i);
      OverlayNext(m, m, k, views, i);
      if |profile.iccid| == 0 { continue; }
      seen := seen + {profile.iccid};
      IndexedSmdp(index, existing, m, k, profile.iccid);
      var smdp := if profile.iccid in index then index[profile.iccid].smdp else [];
      var ok := store.SetProfileState(tenantID, Profile(eid, profile.iccid, profile.enabled, profile.fallback, smdp));
      if !ok { assert false; return Unknown; }
    }
    assert views[..|views|] == views;
    DropUnseen(store, tenantID, eid, existing, seen);
    SyncResult(m, k, views, existing, seen);
    return Applied;
  }

  lemma {:induction false} NothingSeen()
    ensures Seen({}, [])
  {
  }

  lemma {:induction false} OverlayNone(b: Profiles, was: Profiles, k: Key)
    ensures Overlay(b, was, k, []) == b
  {
  }

  lemma {:induction false} OverlayNext(b: Profiles, was: Profiles, k: Key, views: seq<ProfileView>, i: nat)
    requires i < |views|
    ensures var v, init := views[i], Overlay(b, was, k, views[..i]);
            Overlay(b, was, k, views[..i + 1]) ==
            if v.iccid == [] then init
            else init[Slot(k, v.iccid) := Profile(k.eid, v.iccid, v.enabled, v.fallback,
              ProfileOr(was, k, v.iccid).smdp)]
  {
    assert views[..i + 1][..i] == views[..i];
  }

  /** The second loop: the profiles that were not reported go. */
  method DropUnseen(store: S.Store, tenantID: Text, eid: Text, existing: seq<Profile>, seen: set<Text>)
    requires Inv(store.View())
    modifies store
    ensures Inv(store.View())
    ensures var s, k := old(store.View()), KeyOf(tenantID, eid);
            k in s.devices ==> store.View() == WithProfiles(s, Dropped(s.records.profiles, k, existing, seen))
  {
    hide Inv;
    ghost var s, k := store.View(), KeyOf(tenantID, eid);
    ghost var m := s.records.profiles;
    for i := 0 to |existing|
      invariant Inv(store.View())
      invariant k in s.devices ==> store.View() == WithProfiles(s, Dropped(m, k, existing[..i], seen))
    {
      assert existing[..i + 1][..i] == existing[..i];
      if existing[i].iccid !in seen {
        ghost var d := Dropped(m, k, existing[..i], seen);
        assert Slot(k, existing[i].iccid) !in d ==> d - {Slot(k, existing[i].iccid)} == d;
        var _ := store.DeleteProfileState(tenantID, eid, existing[i].iccid);
      }
    }
    assert existing[..|existing|] == existing;
  }

  // ---- the fallback attribute ----

  /** The profiles in done have been given their attribute. */
  function Marked(m: Profiles, k: Key, target: Option<Text>, done: set<Text>): (r: Profiles) {
    map s | s in m :: if s.device == k && s.name in done then m[s].(fallback := target == Some(s.name)) else m[s]
  }

  lemma {:induction false} MarkedNone(m: Profiles, k: Key, target: Option<Text>)
    ensures Marked(m, k, target, {}) == m
  {
  }

  lemma {:induction false} MarkedNext(m: Profiles, k: Key, target: Option<Text>, done: set<Text>, p: Profile)
    requires Slot(k, p.iccid) in m && m[Slot(k, p.iccid)] == p && p.iccid !in done
    ensures var now, after := Marked(m, k, target, done), Marked(m, k, target, done + {p.iccid});
            && after == now[Slot(k, p.iccid) := p.(fallback := target == Some(p.iccid))]
            && (p.fallback == (target == Some(p.iccid)) ==> after == now)
  {
    var now, after := Marked(m, k, target, done), Marked(m, k, target, done + {p.iccid});
    assert now[Slot(k, p.iccid)] == p;
    forall s | s in m ensures after[s] == now[Slot(k, p.iccid) := p.(fallback := target == Some(p.iccid))][s] {
      if s.device == k && s.name == p.iccid { assert s == Slot(k, p.iccid); }
    }
  }

  method MarkFallback(
    store: S.Store, tenantID: Text, eid: Text, states: seq<Profile>, target: Option<Text>
  ) returns (found: bool)
    requires Inv(store.View()) && KeyOf(tenantID, eid) in store.devices
    requires S.ListsProfiles(states, store.profiles, KeyOf(tenantID, eid))
    requires forall p :: p in states ==> p.eid == eid
    modifies store
    ensures Inv(store.View())
    ensures var s, k := old(store.View()), KeyOf(tenantID, eid);
            && store.View() == WithProfiles(s, Marked(s.records.profiles, k, target, Names(states)))
            && found == (target.Some? && Slot(k, target.value) in s.records.profiles)
  {
    ghost var s, k := store.View(), KeyOf(tenantID, eid);
    ghost var m := s.records.profiles;
    assert forall x :: x in m && x.device == k ==> m[x].iccid == x.name;
    hide Inv, Marked, Names, S.ListsProfiles;
    MarkedNone(m, k, target);
    found := false;
    assert states[..0] == [];
    NamesNone();
    for i := 0 to |states|
      invariant Inv(store.View())
      invariant store.View() == WithProfiles(s, Marked(m, k, target, Names(states[..i])))
      invariant found == (target.Some? && target.value in Names(states[..i]))
    {
      var state := states[i];
      ListedNext(states, m, k, i);
      MarkedNext(m, k, target, Names(states[..i]), state);
      var want := target == Some(state.iccid);
      if state.fallback == want {
        if want { found := true; }
      } else {
        var ok := store.SetProfileState(tenantID, state.(fallback := want));
        if want { found := true; }
      }
    }
    assert states[..|states|] == states;
    if target.Some? { NamesOf(states, m, k, target.value); }
  }

  lemma {:induction false} NamesNone()
    ensures Names([]) == {}
  {
  }

  lemma {:induction false} ListedNext(states: seq<Profile>, m: Profiles, k: Key, i: nat)
    requires i < |states| && S.ListsProfiles(states, m, k)
    ensures var p := states[i];
            && p in states && Slot(k, p.iccid) in m && m[Slot(k, p.iccid)] == p
            && p.iccid !in Names(states[..i]) && Names(states[..i + 1]) == Names(states[..i]) + {p.iccid}
  {
    assert S.HasProfile(m, k, states[i]);
    assert states[..i + 1][..i] == states[..i];
    NamesHas(states[..i], states[i].iccid);
  }

  lemma {:induction false} MarkedAll(m: Profiles, k: Key, states: seq<Profile>, iccid: Text)
    requires S.ListsProfiles(states, m, k)
    requires forall s :: s in m && s.device == k ==> m[s].iccid == s.name
    ensures Marked(m, k, Some(iccid), Names(states)) == FallbackMoved(m, k, iccid)
    ensures Marked(m, k, None, Names(states)) == FallbackCleared(m, k)
  {
    forall s | s in m && s.device == k ensures s.name in Names(states) {
      assert s == Slot(k, s.name);
      NamesOf(states, m, k, s.name);
    }
    hide Names;
    assert Marked(m, k, Some(iccid), Names(states)) == FallbackMoved(m, k, iccid);
    assert Marked(m, k, None, Names(states)) == FallbackCleared(m, k);
  }

  lemma {:induction false} ListedEids(s: State, k: Key, states: seq<Profile>)
    requires Inv(s) && S.ListsProfiles(states, s.records.profiles, k)
    ensures forall p :: p in states ==> p.eid == k.eid
    ensures forall x :: x in s.records.profiles && x.device == k ==> s.records.profiles[x].iccid == x.name
  {
    forall p | p in states ensures p.eid == k.eid { assert S.HasProfile(s.records.profiles, k, p); }
  }

  method SetProfileFallback(store: S.Store, tenantID: Text, eid: Text, iccid: Text) returns (e: Effect)
    requires Inv(store.View())
    modifies store
    ensures Inv(store.View())
    ensures var s, k := old(store.View()), KeyOf(tenantID, eid);
            if k in s.devices then e == Applied && store.View() ==
              WithProfiles(s, FallbackSet(s.records.profiles, k, iccid))
            else e == Unknown && store.View() == s
  {
    hide Inv, Marked, FallbackMoved;
    ghost var s, k := store.View(), KeyOf(tenantID, eid);
    var states := store.ListProfileStates(tenantID, eid);
    if states.None? { return Unknown; }
    ListedEids(s, k, states.value);
    MarkedAll(s.records.profiles, k, states.value, iccid);
    var found := MarkFallback(store, tenantID, eid, states.value, Some(iccid));
    if found { return Applied; }
    var ok := store.SetProfileState(tenantID, Profile(eid, iccid, false, true, []));
    e := if ok then Applied else Unknown;
  }

  method ClearProfileFallback(store: S.Store, tenantID: Text, eid: Text) returns (e: Effect)
    requires Inv(store.View())
    modifies store
    ensures Inv(store.View())
    ensures var s, k := old(store.View()), KeyOf(tenantID, eid);
            if k in s.devices then e == Applied && store.View() ==
              WithProfiles(s, FallbackCleared(s.records.profiles, k))
            else e == Unknown && store.View() == s
  {
    hide Inv, Marked, FallbackMoved, FallbackCleared;
    ghost var s, k := store.View(), KeyOf(tenantID, eid);
    var states := store.ListProfileStates(tenantID, eid);
    if states.None? { return Unknown; }
    ListedEids(s, k, states.value);
    MarkedAll(s.records.profiles, k, states.value, []);
    var _ := MarkFallback(store, tenantID, eid, states.value, None);
    return Applied;
  }

  // ---- the switch ----

  function WithEffect(s: State, a: (Records, Effect)): (r: (State, Effect)) { (s.(records := a.0), a.1) }

  method ApplyPsmoState(store: S.Store, tenantID: Text, eid: Text, p: Psmo, v: Verdict) returns (e: Effect)
    requires Inv(store.View()) && v.Ruled?
    modifies store
    ensures Inv(store.View())
    ensures var s, k := old(store.View()), KeyOf(tenantID, eid);
            (store.View(), e) == WithEffect(s, PsmoEffect(k in s.devices, s.records, k, p, v))
  {
    hide Inv, EnabledSet, Synced, FallbackSet, FallbackCleared, Hex;
    ghost var s, k := store.View(), KeyOf(tenantID, eid);
    match p
    case Enable(iccid, _) => e := SetProfileEnabled(store, tenantID, eid, Hex(iccid), true);
    case Disable(iccid) => e := SetProfileEnabled(store, tenantID, eid, Hex(iccid), false);
    case Delete(iccid) =>
      ghost var m := s.records.profiles;
      assert Slot(k, Hex(iccid)) !in m ==> m - {Slot(k, Hex(iccid))} == m;
      var _ := store.DeleteProfileState(tenantID, eid, Hex(iccid));
      e := Applied;
    case ListProfileInfo(_) => e := SyncProfileInventory(store, tenantID, eid, v.profiles);
    case SetFallback(iccid) => e := SetProfileFallback(store, tenantID, eid, Hex(iccid));
    case UnsetFallback => e := ClearProfileFallback(store, tenantID, eid);
    case SetDefaultDp(address) =>
      if address == [] { return Applied; }
      var state := store.GetEuiccState(tenantID, eid);
      var u := if state.Some? then state.value else Euicc(eid, [], []);
      var ok := store.SetEuiccState(tenantID, u.(eid := eid, defaultSmdp := address));
      e := if ok then Applied else Unknown;
    case GetRat => e := Applied;
    case ConfigureImmediateEnable(_) => e := Applied;
  }

  /** existingAssociationToken and AssociationTokenForEIM. */
  method AssociationToken(store: S.Store, tenantID: Text, eid: Text, eimID: Text) returns (r: Option<Option<Int64>>)
    ensures r == TokenFor(store.eims, KeyOf(tenantID, eid), eimID)
  {
    hide DecodeConfigBytes;
    var a := store.GetAssociatedEim(tenantID, eid, eimID);
    if a.None? { return Some(None); }
    var c := DecodeConfigBytes(a.value.config);
    r := if c.None? then None else Some(c.value.token);
  }

  method ApplyEcoState(store: S.Store, tenantID: Text, eid: Text, eco: Eco, v: Verdict) returns (e: Effect)
    requires Inv(store.View()) && v.Ruled?
    modifies store
    ensures Inv(store.View())
    ensures var s, k := old(store.View()), KeyOf(tenantID, eid);
            (store.View(), e) == WithEffect(s, EcoEffect(k in s.devices, s.records, k, eco, v))
  {
    hide Inv, TokenFor, EncodeConfig;
    ghost var s, k := store.View(), KeyOf(tenantID, eid);
    if eco.ListEim? { return Applied; }
    if eco.DeleteEim? {
      ghost var m := s.records.eims;
      assert Slot(k, eco.eimID) !in m ==> m - {Slot(k, eco.eimID)} == m;
      var _ := store.DeleteAssociatedEim(tenantID, eid, eco.eimID);
      return Applied;
    }
    var config := eco.config;
    if eco.AddEim? && v.token.Some? {
      config := config.(token := v.token);
    } else if eco.UpdateEim? && config.token.None? {
      var token := AssociationToken(store, tenantID, eid, config.eimID);
      if token.None? { return Fault; }
      if token.value.Some? { config := config.(token := token.value); }
    }
    var ok := store.SetAssociatedEim(tenantID, AssociatedEim(eid, config.eimID, config.idType, EncodeConfig(config)));
    e := if ok then Applied else Unknown;
  }

  method ApplyPackageResultState(
    store: S.Store, tenantID: Text, eid: Text, pkg: Package, v: Verdict
  ) returns (e: Effect)
    requires Inv(store.View()) && v.Ruled?
    modifies store
    ensures Inv(store.View())
    ensures var s, k := old(store.View()), KeyOf(tenantID, eid);
            (store.View(), e) == WithEffect(s, PackageEffect(k in s.devices, s.records, k, pkg, v))
  {
    hide Inv, PsmoEffect, EcoEffect;
    var op := Single(pkg);
    match op
    case NoOp => e := Applied;
    case PsmoOp(p) => e := ApplyPsmoState(store, tenantID, eid, p, v);
    case EcoOp(c) => e := ApplyEcoState(store, tenantID, eid, c, v);
  }
}
