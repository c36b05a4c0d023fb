/** The field helpers of asn1/codec.go: typed values as primitive objects, and optional children. */
module Fields {
  import opened Octets
  import opened Tlv
  import opened Tags
  import BitString

  function ValueOf(t: Tlv): (r: seq<Octet>) { if t.Prim? then t.value else [] }

  function IntegerTlv(tag: Tag, v: Int64): (r: Tlv) { Prim(tag, IntOctets(v)) }

  function IntegerOf(t: Tlv): (r: Option<Int64>) {
    var o := ValueOf(t);
    if o == [] then None
    else
      var v := IntValue(o);
      if -INT64_LIMIT <= v < INT64_LIMIT then Some(v) else None
  }

  lemma {:induction false} IntegerRoundTrip(tag: Tag, v: Int64)
    ensures IntegerOf(IntegerTlv(tag, v)) == Some(v)
  {
    IntRoundTrip(v);
  }

  /** An optional field, encoded when present. */
  function TextField(tag: Tag, o: Option<Text>): (r: Option<Tlv>) {
    if o.Some? then Some(Prim(tag, o.value)) else None
  }

  function IntField(tag: Tag, o: Option<Int64>): (r: Option<Tlv>) {
    if o.Some? then Some(IntegerTlv(tag, o.value)) else None
  }

  function FlagField(tag: Tag, b: bool): (r: Option<Tlv>) {
    if b then Some(Prim(tag, [])) else None
  }

  function TextOf(o: Option<Tlv>): (r: Option<Text>) {
    if o.Some? then Some(ValueOf(o.value)) else None
  }

  /** The outer option is the error, the inner one the absence of the field. */
  function OptionalInt(o: Option<Tlv>): (r: Option<Option<Int64>>) {
    if o.None? then Some(None)
    else
      var v :- IntegerOf(o.value);
      Some(Some(v))
  }

  function RequiredInt(o: Option<Tlv>): (r: Option<Int64>) {
    var t :- o;
    IntegerOf(t)
  }

  lemma {:induction false} FieldRoundTrips(tag: Tag)
    ensures forall o {:trigger TextField(tag, o)} :: TextOf(TextField(tag, o)) == o
    ensures forall o {:trigger IntField(tag, o)} :: OptionalInt(IntField(tag, o)) == Some(o)
    ensures forall b {:trigger FlagField(tag, b)} :: FlagField(tag, b).Some? == b
    ensures forall o {:trigger TextField(tag, o)} :: HasTag(TextField(tag, o), tag)
    ensures forall o {:trigger IntField(tag, o)} :: HasTag(IntField(tag, o), tag)
    ensures forall b {:trigger FlagField(tag, b)} :: HasTag(FlagField(tag, b), tag)
  {
    forall o: Option<Int64> ensures OptionalInt(IntField(tag, o)) == Some(o) {
      if o.Some? { IntegerRoundTrip(tag, o.value); }
    }
  }

  function BitsOf(o: Option<Tlv>): (r: Option<Option<seq<bool>>>) {
    if o.None? then Some(None)
    else
      var b :- BitString.Unpack(ValueOf(o.value));
      Some(Some(b))
  }

  /** constructed(SEQUENCE, children...): the children of an arm under a universal SEQUENCE. */
  function AsSequence(t: Tlv): (r: Tlv) { Cons(SEQUENCE, if t.Cons? then t.kids else []) }

  // ---- well-formedness of the objects built from fields ----

  lemma {:induction false} OneValid(t: Tlv)
    ensures AllValid([t]) <==> Valid(t)
  {
    assert [t][1..] == [];
  }

  lemma {:induction false} PrimFieldsOk(tag: Tag)
    requires TagOk(tag) && !IsConstructed(tag)
    ensures forall v {:trigger Prim(tag, v)} :: FieldOk(Some(Prim(tag, v))) && Valid(Prim(tag, v))
    ensures forall o {:trigger TextField(tag, o)} :: FieldOk(TextField(tag, o))
    ensures forall o {:trigger IntField(tag, o)} :: FieldOk(IntField(tag, o))
    ensures forall b {:trigger FlagField(tag, b)} :: FieldOk(FlagField(tag, b))
  {
  }
}
