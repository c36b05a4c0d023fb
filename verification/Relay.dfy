/**
 The relay's routing table (relay/relay.go) under concurrent calls. A call is a sequence
 of steps; only the steps on the table hold the mutex, so steps of different calls
 interleave freely. The log says what was sent to which SM-DP+, and which posts
 were answered with what.
 */
module Relay {
  import opened Octets
  import opened Tlv
  import opened Tags

  // ---- what is read out of a message ----

  /** firstTLV: the first object with a tag, depth first, the object itself included. */
  function FirstDeep(t: Tlv, tag: Tag): (r: Option<Tlv>)
    ensures r.Some? ==> r.value.tag == tag
    decreases t, 1
  {
    if t.tag == tag then Some(t) else if t.Cons? then FirstDeepIn(t.kids, tag) else None
  }

  function FirstDeepIn(ts: seq<Tlv>, tag: Tag): (r: Option<Tlv>)
    ensures r.Some? ==> r.value.tag == tag
    decreases ts, 0
  {
    if ts == [] then None
    else
      var found := FirstDeep(ts[0], tag);
      if found.Some? then found else FirstDeepIn(ts[1..], tag)
  }

  /** The contents of the first object with a tag; a message that does not parse has none. */
  function ValueIn(data: seq<Octet>, tag: Tag): (r: Text) {
    match ParseOne(data)
    case None => []
    case Some(t) =>
      match FirstDeep(t, tag)
      case None => []
      case Some(c) => if c.Prim? then c.value else []
  }

  function TransactionID(data: seq<Octet>): (r: Text) { ValueIn(data, P0) }

  function SmdpAddress(data: seq<Octet>): (r: Text) { ValueIn(data, P3) }

  function NotificationAddress(data: seq<Octet>): (r: Text) { ValueIn(data, UTF8) }

  /** strings.TrimSpace leaves nothing, for ASCII white space. */
  predicate Blank(t: Text) { forall i :: 0 <= i < |t| ==> t[i] == 32 || 9 <= t[i] <= 13 }

  // ---- the table ----

  type Routes = map<Text, Text>

  function Remembered(m: Routes, tx: Text, address: Text): (r: Routes) {
    if tx == [] || address == [] then m else m[Hex(tx) := address]
  }

  function Forgotten(m: Routes, tx: Text): (r: Routes) { if tx == [] then m else m - {Hex(tx)} }

  function RouteFor(m: Routes, tx: Text): (r: Option<Text>) {
    if tx != [] && Hex(tx) in m && m[Hex(tx)] != [] then Some(m[Hex(tx)]) else None
  }

  /** The mutex-guarded methods, each one atomic step. */
  class Table {
    var byTransaction: Routes

    constructor ()
      ensures byTransaction == map[]
    {
      byTransaction := map[];
    }

    method RememberTransaction(tx: Text, address: Text)
      modifies this
      ensures byTransaction == Remembered(old(byTransaction), tx, address)
    {
      if |tx| == 0 || |address| == 0 { return; }
      byTransaction := byTransaction[Hex(tx) := address];
    }

    method ForgetTransaction(tx: Text)
      modifies this
      ensures byTransaction == Forgotten(old(byTransaction), tx)
    {
      if |tx| == 0 { return; }
      byTransaction := byTransaction - {Hex(tx)};
    }

    method SmdpForTransaction(tx: Text) returns (r: Option<Text>)
      ensures r == RouteFor(byTransaction, tx)
    {
      if |tx| > 0 && Hex(tx) in byTransaction {
        var address := byTransaction[Hex(tx)];
        if |address| > 0 { return Some(address); }
      }
      return None;
    }
  }

  // ---- calls as steps ----

  datatype Endpoint = Initiate | Authenticate | GetPackage | Notify | Cancel

  /** Where a call stands; the address is the one it will post, or has posted, to. */
  datatype Phase =
    | Begun
    | Holding(address: Text)
    | InFlight(address: Text)
    | Replied(address: Text, response: seq<Octet>)
    | HalfDone(address: Text, response: seq<Octet>)
    | Finished

  datatype Call = Call(endpoint: Endpoint, request: seq<Octet>, phase: Phase)

  datatype Entry =
    | Sent(endpoint: Endpoint, address: Text, payload: seq<Octet>, call: int)
    | Succeeded(endpoint: Endpoint, address: Text, request: seq<Octet>, response: seq<Octet>)

  datatype State = State(routes: Routes, calls: map<int, Call>, log: seq<Entry>)

  datatype Event =
    | Start(id: int, endpoint: Endpoint, request: seq<Octet>)
    | Advance(id: int)
    | Answer(id: int, response: Option<seq<Octet>>)

  /** The address a call goes to: taken from the message, or looked up under the mutex. */
  function AddressFor(m: Routes, c: Call): (r: Option<Text>) {
    match c.endpoint
    case Initiate => if SmdpAddress(c.request) == [] then None else Some(SmdpAddress(c.request))
    case Notify =>
      if NotificationAddress(c.request) != [] then Some(NotificationAddress(c.request))
      else RouteFor(m, TransactionID(c.request))
    case _ => RouteFor(m, TransactionID(c.request))
  }

  function Put(s: State, id: int, c: Call): (r: State) { s.(calls := s.calls[id := c]) }

  /** One step of a call that does not wait for the network. */
  function Advanced(s: State, id: int, c: Call): (r: State) {
    match c.phase
    case Begun =>
      var a := AddressFor(s.routes, c);
      Put(s, id, c.(phase := if a.Some? then Holding(a.value) else Finished))
    case Holding(a) =>
      if Blank(a) then Put(s, id, c.(phase := Finished))
      else Put(s, id, c.(phase := InFlight(a))).(log := s.log + [Sent(c.endpoint, a, c.request, id)])
    case InFlight(_) => s
    case Replied(a, response) =>
      (match c.endpoint
       case Initiate =>
         Put(s, id, c.(phase := HalfDone(a, response))).(routes := Remembered(s.routes, TransactionID(c.request), a))
       case Notify => Put(s, id, c.(phase := Finished))
       case Cancel => Put(s, id, c.(phase := Finished)).(routes := Forgotten(s.routes, TransactionID(c.request)))
       case _ => Put(s, id, c.(phase := Finished)).(routes := Remembered(s.routes, TransactionID(response), a)))
    case HalfDone(a, response) =>
      Put(s, id, c.(phase := Finished)).(routes := Remembered(s.routes, TransactionID(response), a))
    case Finished => s
  }

  function Step(s: State, e: Event): (r: State) {
    match e
    case Start(id, endpoint, request) => if id in s.calls then s else Put(s, id, Call(endpoint, request, Begun))
    case Advance(id) => if id in s.calls then Advanced(s, id, s.calls[id]) else s
    case Answer(id, response) =>
      if id !in s.calls || !s.calls[id].phase.InFlight? then s
      else
        var c := s.calls[id];
        if response.None? then Put(s, id, c.(phase := Finished))
        else Put(s, id, c.(phase := Replied(c.phase.address, response.value)))
               .(log := s.log + [Succeeded(c.endpoint, c.phase.address, c.request, response.value)])
  }

  function Run(s: State, events: seq<Event>): (r: State)
    decreases |events|
  {
    if events == [] then s else Run(Step(s, events[0]), events[1..])
  }

  function Idle(): (r: State) { State(map[], map[], []) }

  // ---- what every interleaving keeps ----

  /** The message names the transaction under which routes are filed as h. */
  predicate Names(data: seq<Octet>, h: Text) { TransactionID(data) != [] && Hex(TransactionID(data)) == h }

  /**
   An answered post that carried a transaction: an InitiateAuthentication whose request or
   answer names it, or an AuthenticateClient or GetBoundProfilePackage whose answer does.
   */
  predicate Carries(e: Entry, h: Text) {
    e.Succeeded?
    && match e.endpoint
       case Initiate => Names(e.request, h) || Names(e.response, h)
       case Authenticate => Names(e.response, h)
       case GetPackage => Names(e.response, h)
       case _ => false
  }

  /** The transaction was carried in an exchange with the address. */
  predicate Known(log: seq<Entry>, h: Text, address: Text) {
    exists i :: 0 <= i < |log| && Carries(log[i], h) && log[i].address == address
  }

  /** An InitiateAuthentication was posted to the address successfully. */
  predicate Initiated(log: seq<Entry>, address: Text) {
    exists i :: 0 <= i < |log| && log[i].Succeeded? && log[i].endpoint == Initiate && log[i].address == address
  }

  predicate ByRoute(e: Endpoint) { e in {Authenticate, GetPackage, Cancel} }

  /** Where a routed call may go: an initiated address that its own transaction was carried to. */
  predicate Reaches(log: seq<Entry>, request: seq<Octet>, address: Text) {
    Initiated(log, address) && TransactionID(request) != [] && Known(log, Hex(TransactionID(request)), address)
  }

  predicate Answered(log: seq<Entry>, c: Call, a: Text, response: seq<Octet>) {
    Initiated(log, a) && Succeeded(c.endpoint, a, c.request, response) in log
  }

  /** The address a routed call holds is one it may go to; an answered call is in the log. */
  predicate CallOk(log: seq<Entry>, c: Call) {
    match c.phase
    case Begun => true
    case Finished => true
    case Holding(a) => ByRoute(c.endpoint) ==> Reaches(log, c.request, a)
    case InFlight(a) => ByRoute(c.endpoint) ==> Reaches(log, c.request, a)
    case Replied(a, response) => c.endpoint != Notify ==> Answered(log, c, a, response)
    case HalfDone(a, response) => c.endpoint == Initiate && Answered(log, c, a, response)
  }

  /** What was sent was the request of its call; by route, only where it may go at that time. */
  predicate EntryOk(s: State, i: int)
    requires 0 <= i < |s.log|
  {
    match s.log[i]
    case Succeeded(_, _, _, _) => true
    case Sent(endpoint, address, payload, id) =>
      && id in s.calls && s.calls[id].request == payload && s.calls[id].endpoint == endpoint
      && (ByRoute(endpoint) ==> Reaches(s.log[..i], payload, address))
  }

  predicate RoutesOk(m: Routes, log: seq<Entry>) { forall h :: h in m ==> Initiated(log, m[h]) && Known(log, h, m[h]) }

  ghost predicate Inv(s: State) {
    && RoutesOk(s.routes, s.log)
    && (forall id :: id in s.calls ==> CallOk(s.log, s.calls[id]))
    && (forall i :: 0 <= i < |s.log| ==> EntryOk(s, i))
  }

  /** One call moves on, the log grows or stays, and the table keeps to initiated addresses. */
  lemma {:induction false} Moved(s: State, t: State, id: int, c: Call, more: seq<Entry>)
    requires Inv(s) && t.calls == s.calls[id := c] && t.log == s.log + more && |more| <= 1
    requires id in s.calls ==> c.request == s.calls[id].request && c.endpoint == s.calls[id].endpoint
    requires CallOk(t.log, c) && RoutesOk(t.routes, t.log)
    requires forall e :: e in more && e.Sent? ==>
               && e.call == id && e.payload == c.request && e.endpoint == c.endpoint
               && (ByRoute(e.endpoint) ==> Reaches(s.log, c.request, e.address))
    ensures Inv(t)
  {
    hide CallOk, RoutesOk, Reaches;
    forall j | j in t.calls ensures CallOk(t.log, t.calls[j]) {
      if j != id { LogGrows(s.log, more, s.calls[j]); }
    }
    forall i | 0 <= i < |t.log| ensures EntryOk(t, i) {
      if i < |s.log| {
        assert EntryOk(s, i);
        assert t.log[..i] == s.log[..i] && t.log[i] == s.log[i];
      } else {
        assert t.log[..i] == s.log && t.log[i] == more[0] && more[0] in more;
      }
    }
  }

  lemma {:induction false} KnownGrows(log: seq<Entry>, more: seq<Entry>, h: Text, a: Text)
    ensures Initiated(log, a) ==> Initiated(log + more, a)
    ensures Known(log, h, a) ==> Known(log + more, h, a)
  {
    hide Carries;
    var after := log + more;
    if Initiated(log, a) {
      var i :| 0 <= i < |log| && log[i].Succeeded? && log[i].endpoint == Initiate && log[i].address == a;
      assert after[i] == log[i];
    }
    if Known(log, h, a) {
      var i :| 0 <= i < |log| && Carries(log[i], h) && log[i].address == a;
      assert after[i] == log[i];
    }
  }

  lemma {:induction false} LogGrows(log: seq<Entry>, more: seq<Entry>, c: Call)
    requires CallOk(log, c)
    ensures CallOk(log + more, c)
  {
    hide Initiated, Known, TransactionID, Hex;
    var h := Hex(TransactionID(c.request));
    match c.phase
    case Begun =>
    case Finished =>
    case Holding(a) => KnownGrows(log, more, h, a);
    case InFlight(a) => KnownGrows(log, more, h, a);
    case Replied(a, _) => KnownGrows(log, more, h, a);
    case HalfDone(a, _) => KnownGrows(log, more, h, a);
  }

  lemma {:induction false} RoutesGrow(m: Routes, log: seq<Entry>, more: seq<Entry>)
    requires RoutesOk(m, log)
    ensures RoutesOk(m, log + more)
  {
    hide Initiated, Known;
    forall h | h in m ensures Initiated(log + more, m[h]) && Known(log + more, h, m[h])
    {
      KnownGrows(log, more, h, m[h]);
    }
  }

  lemma {:induction false} ForgetsOk(m: Routes, tx: Text, log: seq<Entry>)
    requires RoutesOk(m, log)
    ensures RoutesOk(Forgotten(m, tx), log)
  {
    hide Hex, Initiated, Known;
  }

  /** Remembering the transaction an answered exchange carried. */
  lemma {:induction false} RemembersOk(m: Routes, data: seq<Octet>, a: Text, log: seq<Entry>, e: Entry)
    requires RoutesOk(m, log) && Initiated(log, a) && e in log && e.Succeeded? && e.address == a
    requires forall h :: Names(data, h) ==> Carries(e, h)
    ensures RoutesOk(Remembered(m, TransactionID(data), a), log)
  {
    hide Hex, Initiated, Carries, TransactionID;
    var tx := TransactionID(data);
    if tx != [] && a != [] {
      assert Names(data, Hex(tx));
      var i :| 0 <= i < |log| && log[i] == e;
      assert Known(log, Hex(tx), a);
      hide Known;
    }
  }

  lemma {:induction false} AdvanceInv(s: State, id: int)
    requires Inv(s) && id in s.calls
    ensures Inv(Advanced(s, id, s.calls[id]))
  {
    var c := s.calls[id];
    assert CallOk(s.log, c) && RoutesOk(s.routes, s.log);
    hide TransactionID, SmdpAddress, NotificationAddress, Hex, Remembered, Forgotten, Blank, Inv, RoutesOk,
         Initiated, Known, Reaches, Carries;
    var t := Advanced(s, id, c);
    match c.phase
    case Begun =>
      LookupReaches(s, c);
      Moved(s, t, id, t.calls[id], []);
    case Holding(a) =>
      if Blank(a) {
        Moved(s, t, id, t.calls[id], []);
      } else {
        RoutesGrow(s.routes, s.log, [Sent(c.endpoint, a, c.request, id)]);
        LogGrows(s.log, [Sent(c.endpoint, a, c.request, id)], t.calls[id]);
        Moved(s, t, id, t.calls[id], [Sent(c.endpoint, a, c.request, id)]);
      }
    case Replied(a, response) =>
      RepliedOk(s.routes, s.log, c);
      Moved(s, t, id, t.calls[id], []);
    case HalfDone(a, response) =>
      var e := Succeeded(c.endpoint, a, c.request, response);
      CarriesBoth(e);
      RemembersOk(s.routes, response, a, s.log, e);
      Moved(s, t, id, t.calls[id], []);
    case _ =>
  }

  lemma {:induction false} CarriesBoth(e: Entry)
    requires e.Succeeded?
    ensures e.endpoint == Initiate ==> forall h :: Names(e.request, h) || Names(e.response, h) ==> Carries(e, h)
    ensures e.endpoint in {Authenticate, GetPackage} ==> forall h :: Names(e.response, h) ==> Carries(e, h)
  {
    hide Names;
  }

  lemma {:induction false} RepliedOk(m: Routes, log: seq<Entry>, c: Call)
    requires RoutesOk(m, log) && CallOk(log, c) && c.phase.Replied?
    ensures var a, response := c.phase.address, c.phase.response;
            match c.endpoint
            case Initiate => RoutesOk(Remembered(m, TransactionID(c.request), a), log)
            case Notify => true
            case Cancel => RoutesOk(Forgotten(m, TransactionID(c.request)), log)
            case _ => RoutesOk(Remembered(m, TransactionID(response), a), log)
  {
    hide TransactionID, Hex, Remembered, Forgotten, RoutesOk, Initiated, Carries;
    var a, response := c.phase.address, c.phase.response;
    var e := Succeeded(c.endpoint, a, c.request, response);
    CarriesBoth(e);
    match c.endpoint
    case Initiate => RemembersOk(m, c.request, a, log, e);
    case Notify =>
    case Cancel => ForgetsOk(m, TransactionID(c.request), log);
    case _ => RemembersOk(m, response, a, log, e);
  }

  lemma {:induction false} LookupReaches(s: State, c: Call)
    requires RoutesOk(s.routes, s.log)
    ensures AddressFor(s.routes, c).Some? && ByRoute(c.endpoint) ==>
            Reaches(s.log, c.request, AddressFor(s.routes, c).value)
  {
    hide TransactionID, Hex, Initiated, Known;
  }

  lemma {:induction false} StepInv(s: State, e: Event)
    requires Inv(s)
    ensures Inv(Step(s, e))
  {
    hide Advanced, CallOk, RoutesOk;
    var t := Step(s, e);
    match e
    case Start(id, endpoint, request) => if id !in s.calls { NewCall(s, id, endpoint, request); }
    case Advance(id) => if id in s.calls { AdvanceInv(s, id); }
    case Answer(id, response) =>
      if id in s.calls && s.calls[id].phase.InFlight? { AnswerInv(s, id, response); }
  }

  lemma {:induction false} NewCall(s: State, id: int, endpoint: Endpoint, request: seq<Octet>)
    requires Inv(s) && id !in s.calls
    ensures Inv(Put(s, id, Call(endpoint, request, Begun)))
  {
    assert RoutesOk(s.routes, s.log);
    hide Inv, RoutesOk;
    Moved(s, Put(s, id, Call(endpoint, request, Begun)), id, Call(endpoint, request, Begun), []);
  }

  lemma {:induction false} AnswerInv(s: State, id: int, response: Option<seq<Octet>>)
    requires Inv(s) && id in s.calls && s.calls[id].phase.InFlight?
    ensures Inv(Step(s, Answer(id, response)))
  {
    var c, t := s.calls[id], Step(s, Answer(id, response));
    assert CallOk(s.log, c) && RoutesOk(s.routes, s.log);
    hide Inv, RoutesOk, Reaches;
    if response.None? {
      Moved(s, t, id, t.calls[id], []);
    } else {
      var e := Succeeded(c.endpoint, c.phase.address, c.request, response.value);
      AnswerOk(s.log, c, response.value);
      RoutesGrow(s.routes, s.log, [e]);
      Moved(s, t, id, t.calls[id], [e]);
    }
  }

  lemma {:induction false} AnswerOk(log: seq<Entry>, c: Call, response: seq<Octet>)
    requires CallOk(log, c) && c.phase.InFlight?
    ensures CallOk(log + [Succeeded(c.endpoint, c.phase.address, c.request, response)],
            c.(phase := Replied(c.phase.address, response)))
  {
    var e := Succeeded(c.endpoint, c.phase.address, c.request, response);
    var after := log + [e];
    assert after[|log|] == e;
    hide Known;
    if ByRoute(c.endpoint) { KnownGrows(log, [e], [], c.phase.address); }
  }

  lemma {:induction false} RunInv(s: State, events: seq<Event>)
    requires Inv(s)
    ensures Inv(Run(s, events))
    decreases |events|
  {
    hide Inv, Step;
    if events != [] {
      StepInv(s, events[0]);
      RunInv(Step(s, events[0]), events[1..]);
    }
  }

  /**
   In every interleaving of calls, each held route is one of a transaction that an answered
   exchange with that address carried, and the address is an initiated one;
   AuthenticateClient, GetBoundProfilePackage and CancelSession post only to addresses that
   carried their own transaction before, and what is posted is the request of the call.
   */
  lemma {:induction false} RoutesAreInitiated(events: seq<Event>)
    ensures var s := Run(Idle(), events);
            RoutesOk(s.routes, s.log) && forall i :: 0 <= i < |s.log| ==> EntryOk(s, i)
  {
    RunInv(Idle(), events);
  }

  // ---- one SM-DP+ for a transaction ----

  /** Every exchange that carried the transaction was with the one address. */
  predicate Exclusive(log: seq<Entry>, h: Text, address: Text) {
    forall i :: 0 <= i < |log| && Carries(log[i], h) ==> log[i].address == address
  }

  /** All messages of a transaction that only one SM-DP+ ever carried go to that SM-DP+. */
  lemma {:induction false} ExclusiveStays(events: seq<Event>, h: Text, address: Text)
    requires Exclusive(Run(Idle(), events).log, h, address)
    ensures var s := Run(Idle(), events);
            && (h in s.routes ==> s.routes[h] == address)
            && forall i ::
                 0 <= i < |s.log| && s.log[i].Sent? && ByRoute(s.log[i].endpoint) && Names(s.log[i].payload, h)
                 ==> s.log[i].address == address
  {
    hide Run, Carries, Hex, TransactionID;
    var s := Run(Idle(), events);
    RoutesAreInitiated(events);
    forall i | 0 <= i < |s.log| && s.log[i].Sent? && ByRoute(s.log[i].endpoint) && Names(s.log[i].payload, h)
      ensures s.log[i].address == address
    {
      assert EntryOk(s, i);
      var j :| 0 <= j < i && Carries(s.log[..i][j], h) && s.log[..i][j].address == s.log[i].address;
      assert s.log[..i][j] == s.log[j];
    }
  }

  /** The call is about to file a transaction under the address it was answered from. */
  predicate Files(c: Call, h: Text, address: Text) {
    match c.phase
    case Replied(a, response) =>
      a == address && (match c.endpoint
                       case Initiate => Names(c.request, h)
                       case Authenticate => Names(response, h)
                       case GetPackage => Names(response, h)
                       case _ => false)
    case HalfDone(a, response) => a == address && Names(response, h)
    case _ => false
  }

  /** A held route changes its address exactly when a call files its transaction under another one. */
  lemma {:induction false} RedirectIff(s: State, e: Event, h: Text)
    requires h in s.routes
    ensures var t := Step(s, e);
            h in t.routes && t.routes[h] != s.routes[h] <==>
            e.Advance? && e.id in s.calls
            && (s.calls[e.id].phase.Replied? || s.calls[e.id].phase.HalfDone?)
            && s.calls[e.id].phase.address != s.routes[h] && s.calls[e.id].phase.address != []
            && Files(s.calls[e.id], h, s.calls[e.id].phase.address)
  {
    hide Hex, TransactionID, SmdpAddress, NotificationAddress, Blank;
  }

  // ---- an answer that names another transaction ----

  /** A message with a transaction and an SM-DP+ address. */
  function Message(tx: Text, address: Text): (r: seq<Octet>) {
    Write(Cons(SEQUENCE, [Prim(P0, tx), Prim(P3, address)]))
  }

  lemma {:induction false} ShortPrim(tag: Tag, value: Text)
    requires |tag| == 1 && |value| < 60
    ensures |Write(Prim(tag, value))| == 2 + |value|
  {
  }

  lemma {:induction false} MessageValues(tx: Text, address: Text)
    requires |tx| < 60 && |address| < 60
    ensures TransactionID(Message(tx, address)) == tx && SmdpAddress(Message(tx, address)) == address
  {
    var p, q := Prim(P0, tx), Prim(P3, address);
    var t := Cons(SEQUENCE, [p, q]);
    assert [p, q][1..] == [q] && [q][1..] == [];
    assert AllValid([q]) && AllValid([p, q]);
    ShortPrim(P0, tx);
    ShortPrim(P3, address);
    assert WriteAll([q]) == Write(q) + WriteAll([]);
    assert Fits(t) by { assert Content(t) == Write(p) + (Write(q) + []); }
    hide Write, ParseOne, Fits;
    ParseOneWrite(t);
    assert FirstDeep(p, P0) == Some(p) && FirstDeep(p, P3) == None && FirstDeep(q, P3) == Some(q);
    assert FirstDeepIn([p, q], P0) == Some(p) && FirstDeepIn([p, q], P3) == FirstDeepIn([q], P3) == Some(q);
  }

  lemma {:induction false} RunAppend(s: State, a: seq<Event>, b: seq<Event>)
    ensures Run(s, a + b) == Run(Run(s, a), b)
    decreases |a|
  {
    hide Step;
    if a == [] {
      assert a + b == b;
    } else {
      assert (a + b)[1..] == a[1..] + b;
      RunAppend(Step(s, a[0]), a[1..], b);
    }
  }

  /** A call from its start to its answer. */
  function Posting(id: int, endpoint: Endpoint, request: seq<Octet>, response: seq<Octet>): (r: seq<Event>) {
    [Start(id, endpoint, request), Advance(id), Advance(id), Answer(id, Some(response))]
  }

  lemma {:induction false} RunFour(s: State, a: Event, b: Event, c: Event, d: Event)
    ensures Run(s, [a, b, c, d]) == Step(Step(Step(Step(s, a), b), c), d)
  {
    hide Step;
    assert [a, b, c, d][1..] == [b, c, d] && [b, c, d][1..] == [c, d] && [c, d][1..] == [d];
    var t := Step(Step(Step(s, a), b), c);
    RunOne(t, d);
    assert Run(Step(Step(s, a), b), [c, d]) == Run(t, [d]);
  }

  lemma {:induction false} PostingRun(s: State, id: int, endpoint: Endpoint, request: seq<Octet>, response: seq<Octet>)
    requires id !in s.calls
    requires var a := AddressFor(s.routes, Call(endpoint, request, Begun)); a.Some? && !Blank(a.value)
    ensures var a := AddressFor(s.routes, Call(endpoint, request, Begun)).value;
            var t := Run(s, Posting(id, endpoint, request, response));
            t.routes == s.routes && t.calls == s.calls[id := Call(endpoint, request, Replied(a, response))]
  {
    hide AddressFor, Blank, TransactionID, Run;
    RunFour(s, Start(id, endpoint, request), Advance(id), Advance(id), Answer(id, Some(response)));
  }

  lemma {:induction false} RunOne(s: State, e: Event)
    ensures Run(s, [e]) == Step(s, e)
  {
    assert [e][1..] == [];
  }

  /** A session begun with an SM-DP+. */
  function Session(id: int, tx: Text, a: Text): (r: seq<Event>) {
    Posting(id, Initiate, Message(tx, a), []) + [Advance(id)]
  }

  lemma {:induction false} SessionRun(s: State, id: int, tx: Text, a: Text)
    requires id !in s.calls && 0 < |tx| < 60 && 0 < |a| < 60 && !Blank(a)
    ensures var t := Run(s, Session(id, tx, a));
            t.routes == s.routes[Hex(tx) := a] && t.calls.Keys == s.calls.Keys + {id}
  {
    MessageValues(tx, a);
    hide Blank, TransactionID, SmdpAddress, Hex, Run, Posting, Message;
    PostingRun(s, id, Initiate, Message(tx, a), []);
    RunAppend(s, Posting(id, Initiate, Message(tx, a), []), [Advance(id)]);
    RunOne(Run(s, Posting(id, Initiate, Message(tx, a), [])), Advance(id));
  }

  lemma {:induction false} AuthenticateRun(s: State, id: int, other: Text, b: Text, tx: Text)
    requires id !in s.calls && 0 < |tx| < 60 && 0 < |other| < 60 && 0 < |b| < 60 && !Blank(b)
    requires RouteFor(s.routes, other) == Some(b)
    ensures Run(s, Posting(id, Authenticate, Message(other, b), Message(tx, b)) + [Advance(id)]).routes ==
            s.routes[Hex(tx) := b]
  {
    MessageValues(other, b);
    MessageValues(tx, b);
    hide Blank, TransactionID, Hex, Run, Posting, Message;
    var events := Posting(id, Authenticate, Message(other, b), Message(tx, b));
    PostingRun(s, id, Authenticate, Message(other, b), Message(tx, b));
    RunAppend(s, events, [Advance(id)]);
    RunOne(Run(s, events), Advance(id));
  }

  /** An answer from one SM-DP+ that names a transaction of another takes over its route. */
  lemma {:induction false} RedirectedByAnswer(tx: Text, a: Text, other: Text, b: Text)
    requires 0 < |tx| < 60 && 0 < |other| < 60 && tx != other
    requires 0 < |a| < 60 && 0 < |b| < 60 && !Blank(a) && !Blank(b)
    ensures var sessions := Session(1, tx, a) + Session(2, other, b);
            var last := Posting(3, Authenticate, Message(other, b), Message(tx, b)) + [Advance(3)];
            && RouteFor(Run(Idle(), sessions).routes, tx) == Some(a)
            && RouteFor(Run(Idle(), sessions + last).routes, tx) == Some(b)
  {
    hide Run, Session, Posting, Message, Hex, Blank;
    HexInjective(tx, other);
    var first, second := Session(1, tx, a), Session(2, other, b);
    var last := Posting(3, Authenticate, Message(other, b), Message(tx, b)) + [Advance(3)];
    SessionRun(Idle(), 1, tx, a);
    SessionRun(Run(Idle(), first), 2, other, b);
    RunAppend(Idle(), first, second);
    AuthenticateRun(Run(Idle(), first + second), 3, other, b, tx);
    RunAppend(Idle(), first + second, last);
  }

  lemma {:induction false} HexInjective(a: Text, b: Text)
    requires a != b
    ensures Hex(a) != Hex(b)
  {
    UnhexHex(a);
    UnhexHex(b);
  }
}
