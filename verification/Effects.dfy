/**
 What a successful package result does to the eIM's records (euiccpkg/state.go), as
 functions of the records; the methods that read and overwrite the store are in Apply.
 */
module Effects {
  import opened Octets
  import opened Tlv
  import opened EuiccPackage
  import opened Outcome
  import opened StoreState

  datatype Effect = Applied | Unknown | Fault

  // ---- profiles ----

  type Profiles = map<Slot<Text>, Profile>

  function ProfileOr(m: Profiles, k: Key, iccid: Text): (p: Profile) {
    if Slot(k, iccid) in m then m[Slot(k, iccid)] else Profile(k.eid, iccid, false, false, [])
  }

  function EnabledSet(m: Profiles, k: Key, iccid: Text, on: bool): (r: Profiles) {
    m[Slot(k, iccid) := ProfileOr(m, k, iccid).(eid := k.eid, iccid := iccid, enabled := on)]
  }

  function Others(m: Profiles, k: Key): (r: Profiles) { map s | s in m && s.device != k :: m[s] }

  /** The reported profiles written over a base; the address of a known profile is kept. */
  function Overlay(base: Profiles, was: Profiles, k: Key, views: seq<ProfileView>): (r: Profiles) {
    if views == [] then base
    else
      var v := views[|views| - 1];
      var init := Overlay(base, was, k, views[..|views| - 1]);
      if v.iccid == [] then init
      else init[Slot(k, v.iccid) := Profile(k.eid, v.iccid, v.enabled, v.fallback, ProfileOr(was, k, v.iccid).smdp)]
  }

  /** The device's inventory becomes exactly what was reported. */
  function Synced(m: Profiles, k: Key, views: seq<ProfileView>): (r: Profiles) { Overlay(Others(m, k), m, k, views) }

  function FallbackMoved(m: Profiles, k: Key, iccid: Text): (r: Profiles) {
    map s | s in m :: if s.device == k then m[s].(fallback := s.name == iccid) else m[s]
  }

  function FallbackSet(m: Profiles, k: Key, iccid: Text): (r: Profiles) {
    if Slot(k, iccid) in m then FallbackMoved(m, k, iccid)
    else FallbackMoved(m, k, iccid)[Slot(k, iccid) := Profile(k.eid, iccid, false, true, [])]
  }

  function FallbackCleared(m: Profiles, k: Key): (r: Profiles) {
    map s | s in m :: if s.device == k then m[s].(fallback := false) else m[s]
  }

  function DefaultDpSet(m: map<Key, Euicc>, k: Key, address: Text): (r: map<Key, Euicc>) {
    m[k := (if k in m then m[k] else Euicc(k.eid, [], [])).(eid := k.eid, defaultSmdp := address)]
  }

  /** applyPSMOState. */
  function PsmoEffect(known: bool, r: Records, k: Key, p: Psmo, v: Verdict): (a: (Records, Effect))
    requires v.Ruled?
  {
    match p
    case Enable(iccid, _) =>
      if known then (r.(profiles := EnabledSet(r.profiles, k, Hex(iccid), true)), Applied) else (r, Unknown)
    case Disable(iccid) =>
      if known then (r.(profiles := EnabledSet(r.profiles, k, Hex(iccid), false)), Applied) else (r, Unknown)
    case Delete(iccid) => if known then (r.(profiles := r.profiles - {Slot(k, Hex(iccid))}), Applied) else (r, Applied)
    case ListProfileInfo(_) =>
      if known then (r.(profiles := Synced(r.profiles, k, v.profiles)), Applied) else (r, Unknown)
    case SetFallback(iccid) =>
      if known then (r.(profiles := FallbackSet(r.profiles, k, Hex(iccid))), Applied) else (r, Unknown)
    case UnsetFallback => if known then (r.(profiles := FallbackCleared(r.profiles, k)), Applied) else (r, Unknown)
    case SetDefaultDp(address) =>
      if address == [] then (r, Applied)
      else if known then (r.(euiccs := DefaultDpSet(r.euiccs, k, address)), Applied) else (r, Unknown)
    case GetRat => (r, Applied)
    case ConfigureImmediateEnable(_) => (r, Applied)
  }

  // ---- associated eIMs ----

  type Eims = map<Slot<Text>, AssociatedEim>

  function EncodeConfig(c: EimConfig): (o: seq<Octet>) { Write(ConfigTlv(c)) }

  function DecodeConfigBytes(data: seq<Octet>): (r: Option<EimConfig>) {
    var t :- ParseOne(data);
    DecodeConfig(t)
  }

  lemma {:induction false} ConfigWireRoundTrip(c: EimConfig)
    requires ConfigOk(c) && Fits(ConfigTlv(c))
    ensures DecodeConfigBytes(EncodeConfig(c)) == Some(c)
  {
    ConfigValid(c);
    assert Valid(ConfigTlv(c)) by { hide ConfigFields, Present; }
    hide ParseOne, ConfigTlv, DecodeConfig, Write;
    ParseOneWrite(ConfigTlv(c));
    ConfigRoundTrip(c);
  }

  /** AssociationTokenForEIM; the outer option is the error of a stored configuration that does not decode. */
  function TokenFor(m: Eims, k: Key, eimID: Text): (r: Option<Option<Int64>>) {
    if Slot(k, eimID) !in m then Some(None)
    else
      var c :- DecodeConfigBytes(m[Slot(k, eimID)].config);
      Some(c.token)
  }

  function Associated(k: Key, c: EimConfig): (a: AssociatedEim) {
    AssociatedEim(k.eid, c.eimID, c.idType, EncodeConfig(c))
  }

  function EimPut(m: Eims, k: Key, c: EimConfig): (r: Eims) { m[Slot(k, c.eimID) := Associated(k, c)] }

  /** The configuration an accepted addEim or updateEim leaves behind; None is an error. */
  function Effective(m: Eims, k: Key, e: Eco, v: Verdict): (r: Option<EimConfig>)
    requires (e.AddEim? || e.UpdateEim?) && v.Ruled?
  {
    if e.AddEim? then Some(if v.token.Some? then e.config.(token := v.token) else e.config)
    else if e.config.token.Some? then Some(e.config)
    else
      var token :- TokenFor(m, k, e.config.eimID);
      Some(e.config.(token := token))
  }

  /** applyECOState. */
  function EcoEffect(known: bool, r: Records, k: Key, e: Eco, v: Verdict): (a: (Records, Effect))
    requires v.Ruled?
  {
    match e
    case ListEim => (r, Applied)
    case DeleteEim(eimID) => if known then (r.(eims := r.eims - {Slot(k, eimID)}), Applied) else (r, Applied)
    case _ =>
      var c := Effective(r.eims, k, e, v);
      if c.None? then (r, Fault)
      else if known then (r.(eims := EimPut(r.eims, k, c.value)), Applied)
      else (r, Unknown)
  }

  /** ApplyPackageResultState. */
  function PackageEffect(known: bool, r: Records, k: Key, pkg: Package, v: Verdict): (a: (Records, Effect))
    requires v.Ruled?
  {
    match Single(pkg)
    case NoOp => (r, Applied)
    case PsmoOp(p) => PsmoEffect(known, r, k, p, v)
    case EcoOp(e) => EcoEffect(known, r, k, e, v)
  }

  // ---- applying an effect again changes nothing ----

  predicate Reported(views: seq<ProfileView>, iccid: Text) {
    iccid != [] && exists i :: 0 <= i < |views| && views[i].iccid == iccid
  }

  /** A reported profile does not depend on the base, and the base shows through everywhere else. */
  lemma {:induction false} OverlayAt(
    b: Profiles, c: Profiles, was: Profiles, k: Key, views: seq<ProfileView>, s: Slot<Text>
  )
    ensures var x, y := Overlay(b, was, k, views), Overlay(c, was, k, views);
            if s.device == k && Reported(views, s.name)
            then s in x && s in y && x[s] == y[s]
                 && x[s].eid == k.eid && x[s].iccid == s.name && x[s].smdp == ProfileOr(was, k, s.name).smdp
            else (s in x <==> s in b) && (s in b ==> x[s] == b[s])
  {
    if views != [] {
      var n := |views| - 1;
      OverlayAt(b, c, was, k, views[..n], s);
      assert Reported(views, s.name) <==>
             (s.name != [] && views[n].iccid == s.name) || Reported(views[..n], s.name) by {
        assert forall i :: 0 <= i < n ==> views[i] == views[..n][i];
      }
    }
  }

  /** Only the addresses of the old inventory matter. */
  lemma {:induction false} OverlaySmdp(b: Profiles, was: Profiles, now: Profiles, k: Key, views: seq<ProfileView>)
    requires forall i :: 0 <= i < |views| && views[i].iccid != [] ==>
             ProfileOr(was, k, views[i].iccid).smdp == ProfileOr(now, k, views[i].iccid).smdp
    ensures Overlay(b, was, k, views) == Overlay(b, now, k, views)
  {
    if views != [] { OverlaySmdp(b, was, now, k, views[..|views| - 1]); }
  }

  lemma {:induction false} SyncTwice(m: Profiles, k: Key, views: seq<ProfileView>)
    ensures Synced(Synced(m, k, views), k, views) == Synced(m, k, views)
  {
    var n := Synced(m, k, views);
    forall s ensures s in Others(n, k) <==> s in Others(m, k) { OverlayAt(Others(m, k), Others(m, k), m, k, views, s); }
    forall s | s in Others(m, k) ensures Others(n, k)[s] == Others(m, k)[s]
    {
      OverlayAt(Others(m, k), Others(m, k), m, k, views, s);
    }
    assert Others(n, k) == Others(m, k);
    forall i | 0 <= i < |views| && views[i].iccid != []
      ensures ProfileOr(n, k, views[i].iccid).smdp == ProfileOr(m, k, views[i].iccid).smdp
    {
      assert Reported(views, views[i].iccid);
      OverlayAt(Others(m, k), Others(m, k), m, k, views, Slot(k, views[i].iccid));
    }
    OverlaySmdp(Others(m, k), m, n, k, views);
  }

  lemma {:induction false} FallbackTwice(m: Profiles, k: Key, iccid: Text)
    ensures FallbackSet(FallbackSet(m, k, iccid), k, iccid) == FallbackSet(m, k, iccid)
    ensures FallbackCleared(FallbackCleared(m, k), k) == FallbackCleared(m, k)
  {
    var n := FallbackSet(m, k, iccid);
    assert FallbackMoved(n, k, iccid) == n;
    var c := FallbackCleared(m, k);
    assert FallbackCleared(c, k) == c;
  }

  lemma {:induction false} PutTwice<K, V>(m: map<K, V>, k: K, v: V)
    ensures m[k := v][k := v] == m[k := v]
  {
  }

  lemma {:induction false} DropTwice<K, V>(m: map<K, V>, k: K)
    ensures (m - {k}) - {k} == m - {k}
  {
  }

  lemma {:induction false} EnabledTwice(m: Profiles, k: Key, iccid: Text, on: bool)
    ensures EnabledSet(EnabledSet(m, k, iccid, on), k, iccid, on) == EnabledSet(m, k, iccid, on)
  {
    var n := EnabledSet(m, k, iccid, on);
    PutTwice(m, Slot(k, iccid), n[Slot(k, iccid)]);
  }

  lemma {:induction false} DefaultDpTwice(m: map<Key, Euicc>, k: Key, address: Text)
    ensures DefaultDpSet(DefaultDpSet(m, k, address), k, address) == DefaultDpSet(m, k, address)
  {
    PutTwice(m, k, DefaultDpSet(m, k, address)[k]);
  }

  lemma {:induction false} PsmoTwice(known: bool, r: Records, k: Key, p: Psmo, v: Verdict)
    requires v.Ruled?
    ensures PsmoEffect(known, PsmoEffect(known, r, k, p, v).0, k, p, v) == PsmoEffect(known, r, k, p, v)
  {
    hide EnabledSet, Synced, FallbackSet, FallbackCleared, DefaultDpSet, Hex;
    match p
    case Enable(iccid, _) => EnabledTwice(r.profiles, k, Hex(iccid), true);
    case Disable(iccid) => EnabledTwice(r.profiles, k, Hex(iccid), false);
    case Delete(iccid) => DropTwice(r.profiles, Slot(k, Hex(iccid)));
    case ListProfileInfo(_) => SyncTwice(r.profiles, k, v.profiles);
    case SetFallback(iccid) => FallbackTwice(r.profiles, k, Hex(iccid));
    case UnsetFallback => FallbackTwice(r.profiles, k, []);
    case SetDefaultDp(address) => DefaultDpTwice(r.euiccs, k, address);
    case _ =>
  }

  /** The configurations the package can leave behind fit a Go slice, whatever the token. */
  ghost predicate TokensFit(c: EimConfig) {
    forall t: Option<Int64> :: Fits(ConfigTlv(c.(token := t)))
  }

  ghost predicate EcoFits(e: Eco) { (e.AddEim? || e.UpdateEim?) ==> TokensFit(e.config) }

  lemma {:induction false} TokenAfterPut(m: Eims, k: Key, c: EimConfig)
    requires ConfigOk(c) && Fits(ConfigTlv(c))
    ensures TokenFor(EimPut(m, k, c), k, c.eimID) == Some(c.token)
  {
    hide DecodeConfigBytes, EncodeConfig;
    ConfigWireRoundTrip(c);
  }

  lemma {:induction false} EcoTwice(known: bool, r: Records, k: Key, e: Eco, v: Verdict)
    requires v.Ruled? && EcoOk(e) && EcoFits(e)
    ensures EcoEffect(known, EcoEffect(known, r, k, e, v).0, k, e, v) == EcoEffect(known, r, k, e, v)
  {
    hide TokenFor, ConfigOk, EncodeConfig, Fits, ConfigTlv;
    match e
    case ListEim =>
    case DeleteEim(eimID) => DropTwice(r.eims, Slot(k, eimID));
    case AddEim(config) =>
      var c := Effective(r.eims, k, e, v).value;
      PutTwice(r.eims, Slot(k, c.eimID), Associated(k, c));
    case UpdateEim(config) =>
      var o := Effective(r.eims, k, e, v);
      if o.Some? {
        var c := o.value;
        ConfigOkToken(config, c.token);
        assert c == config.(token := c.token);
        TokenAfterPut(r.eims, k, c);
        PutTwice(r.eims, Slot(k, c.eimID), Associated(k, c));
      }
  }

  lemma {:induction false} ConfigOkToken(c: EimConfig, t: Option<Int64>)
    requires ConfigOk(c)
    ensures ConfigOk(c.(token := t))
  {
  }

  ghost predicate PackageFits(pkg: Package) {
    pkg.Ecos? ==> forall i :: 0 <= i < |pkg.ecos| ==> EcoFits(pkg.ecos[i])
  }

  /** Every effect is idempotent, errors included. */
  lemma {:induction false} EffectTwice(known: bool, r: Records, k: Key, pkg: Package, v: Verdict)
    requires v.Ruled? && PackageOk(pkg) && PackageFits(pkg)
    ensures PackageEffect(known, PackageEffect(known, r, k, pkg, v).0, k, pkg, v) == PackageEffect(known, r, k, pkg, v)
  {
    hide PsmoEffect, EcoEffect, EcoOk, EcoFits, PsmoOk;
    match Single(pkg)
    case NoOp =>
    case PsmoOp(p) => PsmoTwice(known, r, k, p, v);
    case EcoOp(e) => EcoTwice(known, r, k, e, v);
  }
}
