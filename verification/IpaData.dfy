/**
 The IPA's eUICC data response (asn1/ipadata.go): data objects directly under the response
 or inside its [0] choice arm, and when the two forms decode alike.
 */
module IpaData {
  import opened Octets
  import opened Tlv
  import opened Tags
  import opened Fields
  import opened ResultItems
  import opened Notifications
  import R = PackageResult

  function Kids(t: Tlv): (r: seq<Tlv>) { if t.Cons? then t.kids else [] }

  // ---- the data objects ----

  datatype Capabilities = Capabilities(features: Option<seq<bool>>, protocols: Option<seq<bool>>)

  /** The objects kept undecoded are those of raw with their tags. */
  datatype Data = Data(
    eid: Option<Text>, notifications: seq<PendingNote>, smdp: Option<Text>, results: seq<R.Result>,
    rootSmds: Option<Text>, token: Option<Int64>, transactionID: Option<Text>, capabilities: Option<Capabilities>,
    listPresent: bool, profiles: seq<ProfileInfo>, raw: seq<Tlv>)

  const NO_DATA: Data := Data(None, [], None, [], None, None, None, None, false, [], [])

  function DecodeCapabilities(t: Tlv): (r: Option<Capabilities>) {
    var features :- BitsOf(First(t, P0));
    var protocols :- BitsOf(First(t, P1));
    Some(Capabilities(features, protocols))
  }

  function ListedProfiles(l: ProfileList): (r: seq<ProfileInfo>) { if l.Profiles? then l.profiles else [] }

  /** The profile lists among the items of a result; one that does not decode is skipped. */
  function ItemProfiles(items: seq<Tlv>): (r: seq<ProfileInfo>) {
    if items == [] then []
    else
      var last := items[|items| - 1];
      ItemProfiles(items[..|items| - 1]) +
      if last.tag == PROFILE_INFO_LIST
        && DecodeProfileList(last).Some? then ListedProfiles(DecodeProfileList(last).value) else []
  }

  /** profilesFromPackageResults. */
  function ResultProfiles(results: seq<R.Result>): (r: seq<ProfileInfo>) {
    if results == [] then []
    else
      var last := results[|results| - 1];
      ResultProfiles(results[..|results| - 1]) + if last.ResultSigned? then ItemProfiles(last.data.results) else []
  }

  /** One object read into the data; objects of other tags are only kept. */
  function Read(d: Data, t: Tlv): (r: Option<Data>)
    ensures r.Some? ==> r.value.raw == d.raw + [t]
  {
    var e := d.(raw := d.raw + [t]);
    if t.tag == EID then Some(e.(eid := Some(ValueOf(t))))
    else if t.tag == C0 then
      var notes :- DecodePendingList(t);
      Some(e.(notifications := notes))
    else if t.tag == P1 then Some(e.(smdp := Some(ValueOf(t))))
    else if t.tag == C2 then
      var results :- DecodeAll(Kids(t), R.DecodeResult);
      Some(e.(results := results, profiles := e.profiles + ResultProfiles(results)))
    else if t.tag == P3 then Some(e.(rootSmds := Some(ValueOf(t))))
    else if t.tag == P4 then
      var token :- IntegerOf(t);
      Some(e.(token := Some(token)))
    else if t.tag == P7 then Some(e.(transactionID := Some(ValueOf(t))))
    else if t.tag == C8 then
      var c :- DecodeCapabilities(t);
      Some(e.(capabilities := Some(c)))
    else if t.tag == PROFILE_INFO_LIST then
      var l :- DecodeProfileList(t);
      Some(e.(listPresent := true, profiles := e.profiles + ListedProfiles(l)))
    else Some(e)
  }

  function ReadAll(ts: seq<Tlv>): (r: Option<Data>)
    ensures r.Some? ==> r.value.raw == ts
  {
    if ts == [] then Some(NO_DATA)
    else
      assert ts[..|ts| - 1] + [ts[|ts| - 1]] == ts;
      var d :- ReadAll(ts[..|ts| - 1]);
      Read(d, ts[|ts| - 1])
  }

  /** IpaEuiccData.unmarshal: stops at the first object that does not decode. */
  method UnmarshalData(ts: seq<Tlv>) returns (r: Option<Data>)
    ensures r == ReadAll(ts)
  {
    hide Read;
    var out := NO_DATA;
    assert ts[..|ts|] == ts;
    for i := 0 to |ts|
      invariant ReadAll(ts[..i]) == Some(out)
    {
      assert ts[..i + 1][..i] == ts[..i];
      var next := Read(out, ts[i]);
      if next.None? {
        ReadFails(ts, i + 1);
        return None;
      }
      out := next.value;
    }
    return Some(out);
  }

  lemma {:induction false} ReadFails(ts: seq<Tlv>, n: nat)
    requires n <= |ts| && ReadAll(ts[..n]).None?
    ensures ReadAll(ts).None?
    decreases |ts|
  {
    hide Read;
    if n < |ts| {
      assert ts[..|ts| - 1][..n] == ts[..n];
      ReadFails(ts[..|ts| - 1], n);
    } else {
      assert ts[..n] == ts;
    }
  }

  // ---- the choice ----

  datatype Response = Success(data: Data) | Failure(transactionID: Option<Text>, code: Int64)

  /** isIpaEuiccDataSuccessChoiceArm. */
  predicate IsArm(t: Tlv) {
    Kids(t) == [] || exists i :: 0 <= i < |Kids(t)| && (Kids(t)[i].tag == C0 || !IsPendingTag(Kids(t)[i].tag))
  }

  /** unwrapIpaEuiccDataResponseChoice: the objects, and whether they are those of an error. */
  function Choice(t: Tlv): (r: (seq<Tlv>, bool)) {
    if |Kids(t)| != 1 then (Kids(t), false)
    else
      var child := Kids(t)[0];
      if child.tag == C0 && IsArm(child) then (Kids(child), false)
      else if child.tag == C1 then (Kids(child), true)
      else (Kids(t), false)
  }

  /** What the objects of a response mean. */
  function Meaning(ts: seq<Tlv>, isError: bool): (r: Option<Response>) {
    if isError || FirstIn(ts, INTEGER).Some? then
      var code :- RequiredInt(FirstIn(ts, INTEGER));
      Some(Failure(TextOf(FirstIn(ts, P0)), code))
    else
      var d :- ReadAll(ts);
      Some(Success(d))
  }

  function Decode(t: Tlv): (r: Option<Response>) {
    if t.tag != IPA_EUICC_DATA then None else Meaning(Choice(t).0, Choice(t).1)
  }

  function Bare(objects: seq<Tlv>): (t: Tlv) { Cons(IPA_EUICC_DATA, objects) }

  function Wrapped(objects: seq<Tlv>): (t: Tlv) { Cons(IPA_EUICC_DATA, [Cons(C0, objects)]) }

  /** No objects, or one whose tag is not that of a notification in a list. */
  predicate Recognisable(objects: seq<Tlv>) {
    objects == [] || exists i :: 0 <= i < |objects| && objects[i].tag !in [PROFILE_INSTALL, SEQUENCE, C1]
  }

  lemma {:induction false} ArmIffRecognisable(objects: seq<Tlv>)
    ensures IsArm(Cons(C0, objects)) <==> Recognisable(objects)
  {
    forall tag ensures (tag == C0 || !IsPendingTag(tag)) <==> tag !in [PROFILE_INSTALL, SEQUENCE, C1] {
    }
    assert Kids(Cons(C0, objects)) == objects;
  }

  lemma {:induction false} MeaningRaw(ts: seq<Tlv>)
    ensures Meaning(ts, false).Some? && Meaning(ts, false).value.Success? ==> Meaning(ts, false).value.data.raw == ts
  {
    hide ReadAll;
  }

  /**
   The wrapped form is recognised as wrapped, and decodes to the data of its objects,
   exactly when it is recognisable: every list but one of unknown objects only, all tagged
   like notifications, is.
   */
  lemma {:induction false} WrappedIsRecognised(objects: seq<Tlv>)
    ensures Choice(Wrapped(objects)) == (objects, false) <==> Recognisable(objects)
    ensures Meaning(objects, false).Some? && Meaning(objects, false).value.Success? ==>
              (Decode(Wrapped(objects)) == Meaning(objects, false) <==> Recognisable(objects))
  {
    var arm := Cons(C0, objects);
    assert Kids(Wrapped(objects)) == [arm];
    ArmIffRecognisable(objects);
    if !Recognisable(objects) {
      assert objects != [arm] by { assert objects[0].tag != C0; }
      MeaningRaw(objects);
      MeaningRaw([arm]);
    }
    hide Meaning, Recognisable, IsArm;
  }

  /** A list whose objects include one the response defines is recognisable. */
  lemma {:induction false} DefinedObjectsAreRecognised(objects: seq<Tlv>, i: nat)
    requires i < |objects|
    requires objects[i].tag in [EID, C0, P1, C2, EUICC_INFO1, EUICC_INFO2, P3, P4, C5, C6, P7, C8, C9,
             PROFILE_INFO_LIST, INTEGER]
    ensures Recognisable(objects)
  {
    assert objects[i].tag !in [PROFILE_INSTALL, SEQUENCE, C1];
  }

  /** The single object of a bare response that reads as a choice arm. */
  predicate Mistakable(objects: seq<Tlv>) {
    && |objects| == 1
    && (objects[0].tag == C1
        || (objects[0].tag == C0
           && (Kids(objects[0]) == [] || exists i :: 0 <= i < |Kids(objects[0])| && Kids(objects[0])[i].tag == C0)))
  }

  lemma {:induction false} DecodedTags(ts: seq<Tlv>)
    requires DecodeAll(ts, DecodePending).Some?
    ensures forall i :: 0 <= i < |ts| ==> IsPendingTag(ts[i].tag)
  {
    hide DecodePending, IsPendingTag;
    if ts != [] {
      var n := |ts| - 1;
      DecodedTags(ts[..n]);
      PendingTag(ts[n]);
      forall i | 0 <= i < |ts| ensures IsPendingTag(ts[i].tag) {
        if i < n { assert ts[i] == ts[..n][i]; }
      }
    }
  }

  lemma {:induction false} PendingTag(t: Tlv)
    ensures DecodePending(t).Some? ==> IsPendingTag(t.tag)
  {
    hide DecodeInstallation;
  }

  /** A notifications list that decodes reads as an arm only when it is empty or holds another list. */
  lemma {:induction false} ListIsArm(t: Tlv)
    requires t.tag == C0 && DecodePendingList(t).Some?
    ensures IsArm(t) <==> Kids(t) == [] || exists i :: 0 <= i < |Kids(t)| && Kids(t)[i].tag == C0
  {
    hide DecodePending;
    DecodedTags(Kids(t));
  }

  lemma {:induction false} NotOwnChild(t: Tlv)
    ensures Kids(t) != [t]
  {
    if |Kids(t)| == 1 { assert t.kids[0] < t; }
  }

  /**
   The bare form decodes to the data of its objects unless its only object is a notifications
   list that is empty or holds an A0 object, or an unknown A1 object.
   */
  lemma {:induction false} BareDecodesAlike(objects: seq<Tlv>)
    requires Meaning(objects, false).Some? && Meaning(objects, false).value.Success?
    ensures Decode(Bare(objects)) == Meaning(objects, false) <==> !Mistakable(objects)
  {
    assert Kids(Bare(objects)) == objects;
    if |objects| == 1 {
      OneObject(objects[0]);
      assert objects == [objects[0]];
    }
    hide Meaning, Mistakable, IsArm;
  }

  lemma {:induction false} OneObject(t: Tlv)
    requires Meaning([t], false).Some? && Meaning([t], false).value.Success?
    ensures t.tag == C0 ==> (IsArm(t) <==> Mistakable([t]))
    ensures t.tag == C0 ==> Meaning(Kids(t), false) != Meaning([t], false)
    ensures Meaning(Kids(t), true) != Meaning([t], false)
  {
    MeaningRaw([t]);
    MeaningRaw(Kids(t));
    NotOwnChild(t);
    assert [t][..0] == [];
    if t.tag == C0 {
      assert Read(NO_DATA, t).Some?;
      ListIsArm(t);
    }
  }
}
