/**
 The command-journal hash chain (dataact/journal.go). SHA-256 and the time formatter
 are parameters: results about tampering say which two octet strings would have to
 collide under the hash.
 */
module Journal {
  import opened Octets

  const HASH_SIZE := 32
  const UINT32_LIMIT := 0x1_0000_0000
  const UINT64_LIMIT := 0x1_0000_0000_0000_0000

  datatype Env = Env(hash: seq<Octet> -> seq<Octet>, format: int -> Text)

  ghost predicate HashSized(env: Env) {
    forall x :: |env.hash(x)| == HASH_SIZE
  }

  /** The domain data of an entry. Command is carried along and not hashed. */
  datatype Input = Input(
    tenantID: Text, actorType: Text, actorID: Text, eid: Text, command: Text, psmoDigest: seq<Octet>,
    counter: Option<Int64>, signingKeyID: Text, signatureDigest: seq<Octet>, operationID: Option<Int64>,
    outcome: Text, errorCode: Text)

  // ---- the canonical encoding ----

  datatype Item = Number(n: Int64) | Str(s: Text) | Digest(d: seq<Octet>) | OptNumber(o: Option<Int64>)

  /** uint64(v), big-endian. */
  function U64(v: Int64): (r: seq<Octet>) { FixedOctets(v % UINT64_LIMIT, 8) }

  function Encode(i: Item): (r: seq<Octet>) {
    match i
    case Number(n) => U64(n)
    case Str(s) => FixedOctets(|s| % UINT32_LIMIT, 4) + s
    case Digest(d) => if d == [] then [0] else [1] + d
    case OptNumber(None) => [0]
    case OptNumber(Some(n)) => [1] + U64(n)
  }

  function EncodeAll(items: seq<Item>): (r: seq<Octet>) {
    if items == [] then [] else Encode(items[0]) + EncodeAll(items[1..])
  }

  /** The hashed fields of an entry, in encoding order. */
  function Items(seqNumber: Int64, ts: Text, i: Input): (r: seq<Item>) {
    [ Number(seqNumber), Str(ts), Str(i.tenantID), Str(i.actorType), Str(i.actorID), Str(i.eid), Digest(i.psmoDigest),
      OptNumber(i.counter), Str(i.signingKeyID), Digest(i.signatureDigest), OptNumber(i.operationID), Str(i.outcome),
      Str(i.errorCode) ]
  }

  /** journalCanonical. */
  function Canonical(seqNumber: Int64, ts: Text, i: Input): (r: seq<Octet>) { EncodeAll(Items(seqNumber, ts, i)) }

  /**
   Two values of one field that their encodings tell apart: string lengths that uint32 does
   not confuse, and digests of one length or with one of them absent.
   */
  predicate Comparable(a: Item, b: Item) {
    match (a, b)
    case (Number(_), Number(_)) => true
    case (Str(s), Str(t)) => |s| % UINT32_LIMIT == |t| % UINT32_LIMIT ==> |s| == |t|
    case (Digest(d), Digest(e)) => |d| == |e| || d == [] || e == []
    case (OptNumber(_), OptNumber(_)) => true
    case _ => false
  }

  predicate AllComparable(a: seq<Item>, b: seq<Item>) {
    |a| == |b| && forall i :: 0 <= i < |a| ==> Comparable(a[i], b[i])
  }

  lemma {:induction false} SplitAt(a: seq<Octet>, b: seq<Octet>, x: seq<Octet>, y: seq<Octet>)
    requires a + x == b + y && |a| == |b|
    ensures a == b && x == y
  {
    assert a == (a + x)[..|a|] && b == (b + y)[..|b|];
    assert x == (a + x)[|a|..] && y == (b + y)[|b|..];
  }

  lemma {:induction false} U64Injective(a: Int64, b: Int64)
    requires U64(a) == U64(b)
    ensures a == b
  {
    Powers();
    FromFixedOctets(a % UINT64_LIMIT, 8);
    FromFixedOctets(b % UINT64_LIMIT, 8);
  }

  lemma {:induction false} LengthInjective(m: nat, n: nat)
    requires m < UINT32_LIMIT && n < UINT32_LIMIT && FixedOctets(m, 4) == FixedOctets(n, 4)
    ensures m == n
  {
    Powers();
    FromFixedOctets(m, 4);
    FromFixedOctets(n, 4);
  }

  lemma {:induction false} StrShape(s: Text, x: seq<Octet>)
    ensures Encode(Str(s)) + x == FixedOctets(|s| % UINT32_LIMIT, 4) + (s + x)
  {
    hide FixedOctets;
  }

  lemma {:induction false} StrSplit(s: Text, t: Text, x: seq<Octet>, y: seq<Octet>)
    requires Comparable(Str(s), Str(t)) && Encode(Str(s)) + x == Encode(Str(t)) + y
    ensures s == t && x == y
  {
    hide FixedOctets, Encode;
    var m, n := |s| % UINT32_LIMIT, |t| % UINT32_LIMIT;
    StrShape(s, x);
    StrShape(t, y);
    SplitAt(FixedOctets(m, 4), FixedOctets(n, 4), s + x, t + y);
    LengthInjective(m, n);
    SplitAt(s, t, x, y);
  }

  /** Each encoded item says where it ends: a common continuation cannot hide a difference. */
  lemma {:induction false} ItemSplit(a: Item, b: Item, x: seq<Octet>, y: seq<Octet>)
    requires Comparable(a, b) && Encode(a) + x == Encode(b) + y
    ensures a == b && x == y
  {
    hide FixedOctets, U64;
    assert (Encode(a) + x)[0] == (Encode(b) + y)[0] by {
      Nonempty(a);
      Nonempty(b);
    }
    match a
    case Number(n) =>
      U64Size(n);
      U64Size(b.n);
      SplitAt(U64(n), U64(b.n), x, y);
      U64Injective(n, b.n);
    case Str(s) =>
      StrSplit(s, b.s, x, y);
    case Digest(d) =>
      SplitAt(Encode(a), Encode(b), x, y);
      assert d != [] ==> d == Encode(a)[1..] && b.d == Encode(b)[1..];
    case OptNumber(o) =>
      if o.Some? {
        U64Size(o.value);
        U64Size(b.o.value);
        SplitAt(Encode(a), Encode(b), x, y);
        assert U64(o.value) == Encode(a)[1..] && U64(b.o.value) == Encode(b)[1..];
        U64Injective(o.value, b.o.value);
      } else {
        SplitAt(Encode(a), Encode(b), x, y);
      }
  }

  lemma {:induction false} U64Size(v: Int64)
    ensures |U64(v)| == 8
  {
  }

  lemma {:induction false} Nonempty(i: Item)
    ensures |Encode(i)| > 0
  {
  }

  lemma {:induction false} EncodeInjective(a: seq<Item>, b: seq<Item>)
    requires AllComparable(a, b) && EncodeAll(a) == EncodeAll(b)
    ensures a == b
  {
    if a != [] {
      hide Encode, Comparable;
      ItemSplit(a[0], b[0], EncodeAll(a[1..]), EncodeAll(b[1..]));
      EncodeInjective(a[1..], b[1..]);
      assert a == [a[0]] + a[1..] && b == [b[0]] + b[1..];
    }
  }

  /** The canonical encoding determines every hashed field. */
  lemma {:induction false} CanonicalInjective(m: Int64, t: Text, i: Input, n: Int64, u: Text, j: Input)
    requires AllComparable(Items(m, t, i), Items(n, u, j))
    requires Canonical(m, t, i) == Canonical(n, u, j)
    ensures m == n && t == u && i.(command := []) == j.(command := [])
  {
    EncodeInjective(Items(m, t, i), Items(n, u, j));
    ItemsInjective(m, t, i, n, u, j);
  }

  lemma {:induction false} ItemsInjective(m: Int64, t: Text, i: Input, n: Int64, u: Text, j: Input)
    requires Items(m, t, i) == Items(n, u, j)
    ensures m == n && t == u && i.(command := []) == j.(command := [])
  {
    var a, b := Items(m, t, i), Items(n, u, j);
    assert a[0] == b[0] && a[1] == b[1] && a[2] == b[2] && a[3] == b[3] && a[4] == b[4] && a[5] == b[5] && a[6] == b[6];
    assert a[7] == b[7] && a[8] == b[8] && a[9] == b[9] && a[10] == b[10] && a[11] == b[11] && a[12] == b[12];
  }

  lemma {:induction false} EncodeAllAppend(a: seq<Item>, b: seq<Item>)
    ensures EncodeAll(a + b) == EncodeAll(a) + EncodeAll(b)
  {
    if a == [] {
      assert a + b == b;
    } else {
      hide Encode;
      assert (a + b)[1..] == a[1..] + b;
      EncodeAllAppend(a[1..], b);
    }
  }

  lemma {:induction false} EncodeThree(a: Item, b: Item, c: Item)
    ensures EncodeAll([a, b, c]) == Encode(a) + Encode(b) + Encode(c)
  {
    hide Encode;
    assert [a, b, c][1..] == [b, c] && [b, c][1..] == [c] && [c][1..] == [];
    assert EncodeAll([c]) == Encode(c) && EncodeAll([b, c]) == Encode(b) + Encode(c);
  }

  lemma {:induction false} SmallLength(n: nat)
    requires n < 256
    ensures FixedOctets(n, 4) == [0, 0, 0, n]
  {
    assert FixedOctets(0, 1) == [0] && FixedOctets(0, 2) == [0, 0];
    assert FixedOctets(n / 256, 3) == FixedOctets(0, 2) + [0];
  }

  // ---- digests of different lengths ----

  /** Where a digest stands in the encoding; an optional number and a string follow it. */
  const PSMO := 6
  const SIGNATURE := 9

  type Field = f: int | f == PSMO || f == SIGNATURE witness PSMO

  function Middle(d: seq<Octet>, o: Option<Int64>, s: Text): (r: seq<Item>) { [Digest(d), OptNumber(o), Str(s)] }

  /** The entry with the digest of a field and the two values after it replaced. */
  function Replaced(i: Input, f: Field, d: seq<Octet>, o: Option<Int64>, s: Text): (r: Input) {
    if f == PSMO then i.(psmoDigest := d, counter := o, signingKeyID := s)
    else i.(signatureDigest := d, operationID := o, outcome := s)
  }

  lemma {:induction false} ReplacedItems(
    n: Int64, t: Text, i: Input, f: Field, d: seq<Octet>, o: Option<Int64>, s: Text
  )
    ensures Items(n, t, Replaced(i, f, d, o, s)) == Items(n, t, i)[..f] + (Middle(d, o, s) + Items(n, t, i)[f + 3..])
  {
  }

  lemma {:induction false} SameMiddle(pre: seq<Item>, a: seq<Item>, b: seq<Item>, post: seq<Item>)
    requires EncodeAll(a) == EncodeAll(b)
    ensures EncodeAll(pre + (a + post)) == EncodeAll(pre + (b + post))
  {
    hide *;
    EncodeAllAppend(a, post);
    EncodeAllAppend(b, post);
    EncodeAllAppend(pre, a + post);
    EncodeAllAppend(pre, b + post);
  }

  function Zeros(n: nat): (r: seq<Octet>)
    ensures |r| == n && forall i :: 0 <= i < n ==> r[i] == 0
  {
    seq(n, _ => 0)
  }

  lemma {:induction false} FixedFromBase(s: seq<Octet>)
    ensures FixedOctets(FromBase(s), |s|) == s && FromBase(s) < Pow256(|s|)
  {
    if s != [] {
      FixedFromBase(s[..|s| - 1]);
      assert s == s[..|s| - 1] + [s[|s| - 1]];
    }
  }

  lemma {:induction false} LeadingZeros(n: nat, s: seq<Octet>)
    ensures FromBase(Zeros(n) + s) == FromBase(s)
  {
    var z := Zeros(n) + s;
    if s != [] {
      LeadingZeros(n, s[..|s| - 1]);
      assert z[..|z| - 1] == Zeros(n) + s[..|s| - 1];
    } else if n > 0 {
      LeadingZeros(n - 1, []);
      assert z[..n - 1] == Zeros(n - 1) + [];
    }
  }

  /** The eight octets of a counter in which a digest that is d octets longer ends, and a string begins. */
  function Bridge(d: nat): (r: seq<Octet>)
    requires 1 <= d <= 4
    ensures |r| == 8
  {
    Zeros(4) + (Zeros(d - 1) + [8 - d] + Zeros(4 - d))
  }

  lemma {:induction false} BridgeSmall(d: nat)
    requires 1 <= d <= 4
    ensures FromBase(Bridge(d)) < Pow256(4)
  {
    var tail := Zeros(d - 1) + [8 - d] + Zeros(4 - d);
    LeadingZeros(4, tail);
    FixedFromBase(tail);
  }

  lemma {:induction false} BridgeNumber(d: nat) returns (v: Int64)
    requires 1 <= d <= 4
    ensures U64(v) == Bridge(d)
  {
    hide FromBase, FixedOctets, Pow256, Bridge;
    BridgeSmall(d);
    FixedFromBase(Bridge(d));
    Powers();
    v := FromBase(Bridge(d));
  }

  lemma {:induction false} MiddleOf(x: seq<Octet>, o: Option<Int64>, s: Text)
    requires x != []
    ensures EncodeAll(Middle(x, o, s)) == [1] + x + Encode(OptNumber(o)) + (FixedOctets(|s| % UINT32_LIMIT, 4) + s)
  {
    hide EncodeAll, FixedOctets, U64;
    EncodeThree(Digest(x), OptNumber(o), Str(s));
  }

  lemma {:induction false} FarRegroup(x: seq<Octet>, h: seq<Octet>, n: seq<Octet>, z: seq<Octet>)
    ensures [1] + x + h + (n + (z + [0] + [0, 0, 0, 0])) == [1] + (x + h + n + z) + [0] + ([0, 0, 0, 0] + [])
  {
  }

  /** A digest that takes in the number after it, the string's length, and the string up to its last five octets. */
  lemma {:induction false} FarMiddles(x: seq<Octet>, o: Option<Int64>, d: nat) returns (y: seq<Octet>, s: Text)
    requires x != [] && d >= |Encode(OptNumber(o))| + 4
    ensures |y| == |x| + d && |s| == d + 1 - |Encode(OptNumber(o))|
    ensures EncodeAll(Middle(x, o, s)) == EncodeAll(Middle(y, None, []))
  {
    hide EncodeAll, FixedOctets, Middle, U64;
    var h := Encode(OptNumber(o));
    var z := Zeros(d - |h| - 4);
    s := z + [0] + [0, 0, 0, 0];
    var n := FixedOctets(|s| % UINT32_LIMIT, 4);
    y := x + h + n + z;
    SmallLength(0);
    MiddleOf(x, o, s);
    MiddleOf(y, None, []);
    FarRegroup(x, h, n, z);
  }

  lemma {:induction false} BridgeParts(d: nat)
    requires 1 <= d <= 4
    ensures Bridge(d) == Zeros(d - 1) + [0] + [0, 0, 0, 8 - d] + Zeros(4 - d)
  {
  }

  lemma {:induction false} NearRegroup(x: seq<Octet>, n: seq<Octet>, z: seq<Octet>, w: seq<Octet>)
    ensures [1] + x + ([1] + (z + [0] + n + w)) + ([0, 0, 0, 0] + []) ==
            [1] + (x + [1] + z) + [0] + (n + (w + [0, 0, 0, 0]))
  {
  }

  lemma {:induction false} NearAlike(x: seq<Octet>, v: Int64, z: seq<Octet>, n: seq<Octet>, w: seq<Octet>)
    requires x != [] && U64(v) == z + [0] + n + w && n == FixedOctets(|w| + 4, 4) && |w| <= 4
    ensures EncodeAll(Middle(x, Some(v), [])) == EncodeAll(Middle(x + [1] + z, None, w + [0, 0, 0, 0]))
  {
    hide EncodeAll, FixedOctets, Middle, U64, Encode;
    SmallLength(0);
    MiddleOf(x, Some(v), []);
    EncodeSome(v);
    MiddleOf(x + [1] + z, None, w + [0, 0, 0, 0]);
    EncodeNone();
    NearRegroup(x, n, z, w);
  }

  lemma {:induction false} EncodeSome(v: Int64)
    ensures Encode(OptNumber(Some(v))) == [1] + U64(v)
  {
  }

  lemma {:induction false} EncodeNone()
    ensures Encode(OptNumber(None)) == [0]
  {
  }

  /** Up to four octets longer: the digest takes in the mark and the first octets of the number after it. */
  lemma {:induction false} NearMiddles(x: seq<Octet>, d: nat) returns (y: seq<Octet>, v: Int64, s: Text)
    requires x != [] && 1 <= d <= 4
    ensures |y| == |x| + d && |s| == 8 - d
    ensures EncodeAll(Middle(x, Some(v), [])) == EncodeAll(Middle(y, None, s))
  {
    hide EncodeAll, FixedOctets, Middle, U64, Bridge;
    v := BridgeNumber(d);
    BridgeParts(d);
    SmallLength(8 - d);
    y, s := x + [1] + Zeros(d - 1), Zeros(4 - d) + [0, 0, 0, 0];
    NearAlike(x, v, Zeros(d - 1), [0, 0, 0, 8 - d], Zeros(4 - d));
  }

  lemma {:induction false} ReplacedAlike(
    i: Input, f: Field, x: seq<Octet>, o: Option<Int64>, s: Text, y: seq<Octet>, p: Option<Int64>, u: Text
  )
    requires EncodeAll(Middle(x, o, s)) == EncodeAll(Middle(y, p, u))
    ensures forall n, t {:trigger Canonical(n, t, Replaced(i, f, x, o, s))} ::
              Canonical(n, t, Replaced(i, f, x, o, s)) == Canonical(n, t, Replaced(i, f, y, p, u))
  {
    hide EncodeAll, Middle, Replaced;
    forall n, t ensures Canonical(n, t, Replaced(i, f, x, o, s)) == Canonical(n, t, Replaced(i, f, y, p, u)) {
      ReplacedItems(n, t, i, f, x, o, s);
      ReplacedItems(n, t, i, f, y, p, u);
      var all := Items(n, t, i);
      hide Items;
      SameMiddle(all[..f], Middle(x, o, s), Middle(y, p, u), all[f + 3..]);
    }
  }

  function DigestIn(i: Input, f: Field): (r: seq<Octet>) { if f == PSMO then i.psmoDigest else i.signatureDigest }

  /** Two values for the places after a digest, whose encodings lengthen it by d octets. */
  lemma {:induction false} Lengthened(x: seq<Octet>, d: nat)
    returns (o: Option<Int64>, s: Text, y: seq<Octet>, u: Text)
    requires x != [] && d > 0
    ensures |y| == |x| + d && Comparable(Str(s), Str(u))
    ensures EncodeAll(Middle(x, o, s)) == EncodeAll(Middle(y, None, u))
  {
    hide EncodeAll, Middle, FixedOctets;
    if d < 5 {
      var v;
      y, v, u := NearMiddles(x, d);
      o, s := Some(v), [];
    } else {
      o, u := if d % UINT32_LIMIT == 0 then Some(0) else None, [];
      y, s := FarMiddles(x, o, d);
    }
  }

  /** Entries comparable in every field but one. */
  predicate ComparableBut(a: seq<Item>, b: seq<Item>, f: Field) {
    |a| == |b| && forall k :: 0 <= k < |a| && k != f ==> Comparable(a[k], b[k])
  }

  lemma {:induction false} ReplacedComparable(
    n: Int64, t: Text, i: Input, f: Field, x: seq<Octet>, o: Option<Int64>, s: Text, y: seq<Octet>, p: Option<Int64>,
    u: Text
  )
    requires Comparable(Str(s), Str(u))
    ensures ComparableBut(Items(n, t, Replaced(i, f, x, o, s)), Items(n, t, Replaced(i, f, y, p, u)), f)
  {
    var a, b := Items(n, t, Replaced(i, f, x, o, s)), Items(n, t, Replaced(i, f, y, p, u));
    forall k | 0 <= k < |a| && k != f ensures Comparable(a[k], b[k]) {
      assert k != f + 1 && k != f + 2 ==> a[k] == b[k] && Comparable(a[k], a[k]);
    }
  }

  /**
   The digests carry no length: every entry with a digest, and every greater length, has
   two comparable entries that encode alike, one with this digest and one of that length.
   */
  lemma {:induction false} DigestLengthsCollide(i: Input, f: Field, x: seq<Octet>, q: nat) returns (a: Input, b: Input)
    requires 0 < |x| < q
    ensures DigestIn(a, f) == x && |DigestIn(b, f)| == q
    ensures forall n, t {:trigger Canonical(n, t, a)} ::
              Canonical(n, t, a) == Canonical(n, t, b) && ComparableBut(Items(n, t, a), Items(n, t, b), f)
  {
    hide EncodeAll, Canonical, Middle, ComparableBut, Items, Comparable;
    var o, s, y, u := Lengthened(x, q - |x|);
    a, b := Replaced(i, f, x, o, s), Replaced(i, f, y, None, u);
    ReplacedAlike(i, f, x, o, s, y, None, u);
    forall n, t ensures ComparableBut(Items(n, t, a), Items(n, t, b), f) {
      ReplacedComparable(n, t, i, f, x, o, s, y, None, u);
    }
  }

  /** Comparable entries with digests of p and q octets in a field encode alike only if they are equal. */
  ghost predicate Separates(f: Field, p: nat, q: nat) {
    forall m, t, i, n, u, j ::
      && |DigestIn(i, f)| == p && |DigestIn(j, f)| == q
      && ComparableBut(Items(m, t, i), Items(n, u, j), f)
      && Canonical(m, t, i) == Canonical(n, u, j)
      ==> Items(m, t, i) == Items(n, u, j)
  }

  lemma {:induction false} SeparatesSymmetric(f: Field, p: nat, q: nat)
    requires Separates(f, p, q)
    ensures Separates(f, q, p)
  {
    hide Items, Canonical;
    forall m, t, i, n, u, j |
      && |DigestIn(i, f)| == q && |DigestIn(j, f)| == p
      && ComparableBut(Items(m, t, i), Items(n, u, j), f)
      && Canonical(m, t, i) == Canonical(n, u, j)
      ensures Items(m, t, i) == Items(n, u, j)
    {
      assert ComparableBut(Items(n, u, j), Items(m, t, i), f);
      assert Items(n, u, j) == Items(m, t, i);
    }
  }

  lemma {:induction false} NotSeparated(f: Field, p: nat, q: nat)
    requires 0 < p < q
    ensures !Separates(f, p, q)
  {
    var a, b := DigestLengthsCollide(Input([], [], [], [], [], [], None, [], [], None, [], []), f, Zeros(p), q);
    assert Items(0, [], a)[f] == Digest(DigestIn(a, f)) && Items(0, [], b)[f] == Digest(DigestIn(b, f));
    hide Canonical, Items, ComparableBut, DigestIn;
    assert Canonical(0, [], a) == Canonical(0, [], b);
  }

  /** The encoding separates two digest lengths exactly when they are equal or one of them is 0. */
  lemma {:induction false} SeparatesIff(f: Field, p: nat, q: nat)
    ensures Separates(f, p, q) <==> p == q || p == 0 || q == 0
  {
    hide EncodeAll;
    if p == q || p == 0 || q == 0 {
      forall m, t, i, n, u, j |
        && |DigestIn(i, f)| == p && |DigestIn(j, f)| == q
        && ComparableBut(Items(m, t, i), Items(n, u, j), f)
        && Canonical(m, t, i) == Canonical(n, u, j)
        ensures Items(m, t, i) == Items(n, u, j)
      {
        EncodeInjective(Items(m, t, i), Items(n, u, j));
      }
    } else {
      hide Separates;
      if p < q { NotSeparated(f, p, q); } else { NotSeparated(f, q, p); }
      if Separates(f, p, q) { SeparatesSymmetric(f, p, q); }
    }
  }

  // ---- records ----

  datatype Record = Record(
    seqNumber: Int64, timestamp: int, actorType: Text, actorID: Text, eid: Text, command: Text, psmoHash: Text,
    counter: Option<Int64>, signingKeyID: Text, signatureHash: Text, operationID: Option<Int64>, outcome: Text,
    errorCode: Text, prevHash: Text, entryHash: Text)

  datatype Anchor = Anchor(prevHashBefore: Text, entryHashAfter: Text)

  /** ts.Truncate(time.Microsecond), on nanoseconds. */
  function Truncate(ts: int): (r: int) { ts - ts % 1000 }

  predicate IsSpace(c: Octet) { c == 32 || 9 <= c <= 13 }

  function TrimLeft(t: Text): (r: Text) {
    if t != [] && IsSpace(t[0]) then TrimLeft(t[1..]) else t
  }

  function TrimRight(t: Text): (r: Text) {
    if t != [] && IsSpace(t[|t| - 1]) then TrimRight(t[..|t| - 1]) else t
  }

  /** decodeOptionalHex: text that is not hexadecimal counts as absent. */
  function OptionalHex(t: Text): (r: seq<Octet>) {
    var d := Unhex(TrimRight(TrimLeft(t)));
    if d.Some? then d.value else []
  }

  function InputOf(tenantID: Text, e: Record): (r: Input) {
    Input(tenantID, e.actorType, e.actorID, e.eid, e.command, OptionalHex(e.psmoHash), e.counter, e.signingKeyID,
          OptionalHex(e.signatureHash), e.operationID, e.outcome, e.errorCode)
  }

  /** The hashed fields of a record as the verifier reads them. */
  function RecordItems(env: Env, tenantID: Text, e: Record): (r: seq<Item>) {
    Items(e.seqNumber, env.format(Truncate(e.timestamp)), InputOf(tenantID, e))
  }

  /** The octets whose hash a record must carry. */
  function Preimage(env: Env, tenantID: Text, e: Record): (r: seq<Octet>) {
    var prev := Unhex(e.prevHash);
    (if prev.Some? then prev.value else []) + EncodeAll(RecordItems(env, tenantID, e))
  }

  /** The checks on one record. */
  predicate EntryOk(env: Env, tenantID: Text, e: Record) {
    && Unhex(e.prevHash).Some? && |Unhex(e.prevHash).value| == HASH_SIZE
    && Unhex(e.entryHash) == Some(env.hash(Preimage(env, tenantID, e)))
  }

  predicate Linked(entries: seq<Record>, anchor: Anchor, i: nat)
    requires i < |entries|
  {
    if i == 0 then anchor.prevHashBefore == [] || entries[0].prevHash == anchor.prevHashBefore
    else entries[i].prevHash == entries[i - 1].entryHash
  }

  predicate Accepted(env: Env, tenantID: Text, entries: seq<Record>, anchor: Anchor) {
    && (forall i :: 0 <= i < |entries| ==> Linked(entries, anchor, i) && EntryOk(env, tenantID, entries[i]))
    && (entries != [] ==> anchor.entryHashAfter == [] || entries[|entries| - 1].entryHash == anchor.entryHashAfter)
  }

  /** VerifyJournalSlice. */
  method VerifyJournalSlice(env: Env, tenantID: Text, entries: seq<Record>, anchor: Anchor) returns (ok: bool)
    ensures ok == Accepted(env, tenantID, entries, anchor)
  {
    hide RecordItems, EncodeAll, Unhex;
    if |entries| == 0 { return true; }
    for i := 0 to |entries|
      invariant forall k :: 0 <= k < i ==> Linked(entries, anchor, k) && EntryOk(env, tenantID, entries[k])
    {
      var entry := entries[i];
      if i == 0 && anchor.prevHashBefore != [] && entry.prevHash != anchor.prevHashBefore {
        assert !Linked(entries, anchor, i);
        return false;
      }
      if i > 0 && entry.prevHash != entries[i - 1].entryHash { assert !Linked(entries, anchor, i); return false; }
      var prev := Unhex(entry.prevHash);
      if prev.None? || |prev.value| != HASH_SIZE { assert !EntryOk(env, tenantID, entries[i]); return false; }
      var stored := Unhex(entry.entryHash);
      var want := env.hash(prev.value + EncodeAll(RecordItems(env, tenantID, entry)));
      if stored.None? || want != stored.value { assert !EntryOk(env, tenantID, entries[i]); return false; }
      assert Linked(entries, anchor, i) && EntryOk(env, tenantID, entries[i]);
    }
    var last := entries[|entries| - 1];
    return anchor.entryHashAfter == [] || last.entryHash == anchor.entryHashAfter;
  }

  // ---- what acceptance protects ----

  /** Records at the same position are comparable field by field. */
  predicate SlicesComparable(env: Env, t: Text, a: seq<Record>, u: Text, b: seq<Record>) {
    |a| == |b| && forall i :: 0 <= i < |a| ==> AllComparable(RecordItems(env, t, a[i]), RecordItems(env, u, b[i]))
  }

  /** Two records that hash alike have the same hashed fields and predecessor, or their preimages collide. */
  lemma {:induction false} RecordsAgree(env: Env, t: Text, a: Record, u: Text, b: Record)
    requires EntryOk(env, t, a) && EntryOk(env, u, b) && Unhex(a.entryHash) == Unhex(b.entryHash)
    requires AllComparable(RecordItems(env, t, a), RecordItems(env, u, b))
    requires Preimage(env, t, a) == Preimage(env, u, b)
    ensures RecordItems(env, t, a) == RecordItems(env, u, b) && Unhex(a.prevHash) == Unhex(b.prevHash)
  {
    hide EncodeAll, RecordItems, Unhex, AllComparable;
    var i, j := RecordItems(env, t, a), RecordItems(env, u, b);
    SplitAt(Unhex(a.prevHash).value, Unhex(b.prevHash).value, EncodeAll(i), EncodeAll(j));
    EncodeInjective(i, j);
  }

  /** The two slices have the same hashed fields from position i on. */
  predicate AgreeFrom(env: Env, t: Text, a: seq<Record>, u: Text, b: seq<Record>, i: nat)
    requires |a| == |b|
  {
    forall k :: i <= k < |a| ==> RecordItems(env, t, a[k]) == RecordItems(env, u, b[k])
  }

  /** The records at position i hash two different octet strings to the same value. */
  predicate CollisionAt(env: Env, t: Text, a: seq<Record>, u: Text, b: seq<Record>, i: nat)
    requires |a| == |b| && i < |a|
  {
    && Preimage(env, t, a[i]) != Preimage(env, u, b[i])
    && env.hash(Preimage(env, t, a[i])) == env.hash(Preimage(env, u, b[i]))
  }

  lemma {:induction false} AcceptedAt(env: Env, t: Text, a: seq<Record>, m: Anchor, i: nat)
    requires i < |a| && Accepted(env, t, a, m)
    ensures EntryOk(env, t, a[i])
    ensures i > 0 ==> a[i].prevHash == a[i - 1].entryHash
  {
    hide EntryOk, RecordItems;
    assert Linked(a, m, i);
  }

  /** Records that hash alike agree, or they collide. */
  lemma {:induction false} AgreeAt(
    env: Env, t: Text, a: seq<Record>, m: Anchor, u: Text, b: seq<Record>, n: Anchor, i: nat
  )
    requires SlicesComparable(env, t, a, u, b) && i < |a| && Accepted(env, t, a, m) && Accepted(env, u, b, n)
    requires Unhex(a[i].entryHash) == Unhex(b[i].entryHash) && !CollisionAt(env, t, a, u, b, i)
    ensures RecordItems(env, t, a[i]) == RecordItems(env, u, b[i]) && Unhex(a[i].prevHash) == Unhex(b[i].prevHash)
  {
    hide Accepted, RecordItems, AllComparable, Preimage, Unhex;
    AcceptedAt(env, t, a, m, i);
    AcceptedAt(env, u, b, n, i);
    RecordsAgree(env, t, a[i], u, b[i]);
  }

  lemma {:induction false} AgreeBackwards(
    env: Env, t: Text, a: seq<Record>, m: Anchor, u: Text, b: seq<Record>, n: Anchor, i: nat
  )
    requires SlicesComparable(env, t, a, u, b) && i < |a| && Accepted(env, t, a, m) && Accepted(env, u, b, n)
    requires Unhex(a[|a| - 1].entryHash) == Unhex(b[|b| - 1].entryHash)
    requires forall k: nat :: k < |a| ==> !CollisionAt(env, t, a, u, b, k)
    ensures AgreeFrom(env, t, a, u, b, i) && Unhex(a[i].prevHash) == Unhex(b[i].prevHash)
    decreases |a| - i
  {
    hide Accepted, RecordItems, AllComparable, CollisionAt, Unhex;
    if i < |a| - 1 {
      AgreeBackwards(env, t, a, m, u, b, n, i + 1);
      AcceptedAt(env, t, a, m, i + 1);
      AcceptedAt(env, u, b, n, i + 1);
    }
    AgreeAt(env, t, a, m, u, b, n, i);
  }

  /**
   Two accepted slices of equal length whose last entry hashes are equal agree on every
   hashed field of every entry, unless two of their own records are a hash collision.
   */
  lemma {:induction false} AcceptedSlicesAgree(
    env: Env, t: Text, a: seq<Record>, m: Anchor, u: Text, b: seq<Record>, n: Anchor
  )
    requires SlicesComparable(env, t, a, u, b) && |a| > 0 && Accepted(env, t, a, m) && Accepted(env, u, b, n)
    requires Unhex(a[|a| - 1].entryHash) == Unhex(b[|b| - 1].entryHash)
    ensures AgreeFrom(env, t, a, u, b, 0) || exists k: nat :: k < |a| && CollisionAt(env, t, a, u, b, k)
  {
    hide Accepted, RecordItems, AllComparable, CollisionAt, AgreeFrom, Unhex;
    if forall k: nat :: k < |a| ==> !CollisionAt(env, t, a, u, b, k) {
      AgreeBackwards(env, t, a, m, u, b, n, 0);
    }
  }

  lemma {:induction false} CommandUnhashed(env: Env, t: Text, e: Record, command: Text)
    requires EntryOk(env, t, e)
    ensures EntryOk(env, t, e.(command := command))
  {
    hide EncodeAll, Unhex, OptionalHex;
    assert RecordItems(env, t, e.(command := command)) == RecordItems(env, t, e);
  }

  /** Command is outside the hash: replacing it anywhere leaves a slice accepted. */
  lemma {:induction false} CommandUnprotected(env: Env, t: Text, a: seq<Record>, m: Anchor, i: nat, command: Text)
    requires i < |a| && Accepted(env, t, a, m)
    ensures Accepted(env, t, a[i := a[i].(command := command)], m)
  {
    hide EntryOk;
    var b := a[i := a[i].(command := command)];
    assert EntryOk(env, t, a[i]);
    CommandUnhashed(env, t, a[i], command);
    forall k | 0 <= k < |b| ensures Linked(b, m, k) && EntryOk(env, t, b[k]) {
      assert Linked(a, m, k) && EntryOk(env, t, a[k]);
    }
  }

  // ---- building a chain ----

  datatype Entry = Entry(seqNumber: Int64, timestamp: int, actorType: Text, actorID: Text, command: Text, outcome: Text)

  /** BuildJournalRecord. */
  function BuildRecord(env: Env, tenantID: Text, prev: seq<Octet>, e: Entry): (r: Record) {
    var input := Input(tenantID, e.actorType, e.actorID, [], e.command, [], None, [], [], None, e.outcome, []);
    var hash := env.hash(prev + Canonical(e.seqNumber, env.format(Truncate(e.timestamp)), input));
    Record(e.seqNumber, e.timestamp, e.actorType, e.actorID, [], e.command, [], None, [], [], None, e.outcome, [],
           Hex(prev), Hex(hash))
  }

  function BuildChain(env: Env, tenantID: Text, prev: seq<Octet>, entries: seq<Entry>): (r: seq<Record>)
    ensures |r| == |entries|
    decreases entries
  {
    if entries == [] then []
    else
      var first := BuildRecord(env, tenantID, prev, entries[0]);
      var hash := Unhex(first.entryHash);
      [first] + BuildChain(env, tenantID, if hash.Some? then hash.value else [], entries[1..])
  }

  lemma {:induction false} BuiltRecordOk(env: Env, tenantID: Text, prev: seq<Octet>, e: Entry)
    requires HashSized(env) && |prev| == HASH_SIZE
    ensures var r := BuildRecord(env, tenantID, prev, e);
            && EntryOk(env, tenantID, r) && r.prevHash == Hex(prev)
            && Unhex(r.entryHash).Some? && |Unhex(r.entryHash).value| == HASH_SIZE
            && r.entryHash == Hex(Unhex(r.entryHash).value) && r.entryHash != []
  {
    var r := BuildRecord(env, tenantID, prev, e);
    UnhexHex(prev);
    assert OptionalHex([]) == [];
    var pre := prev + EncodeAll(RecordItems(env, tenantID, r));
    assert pre == Preimage(env, tenantID, r);
    UnhexHex(env.hash(pre));
  }

  lemma {:induction false} NothingAccepted(env: Env, tenantID: Text, anchor: Anchor)
    ensures Accepted(env, tenantID, [], anchor)
  {
  }

  lemma {:induction false} AcceptedCons(env: Env, tenantID: Text, first: Record, rest: seq<Record>, anchor: Anchor)
    requires EntryOk(env, tenantID, first) && first.entryHash != []
    requires anchor.prevHashBefore == [] || first.prevHash == anchor.prevHashBefore
    requires rest == [] ==> anchor.entryHashAfter == [] || first.entryHash == anchor.entryHashAfter
    requires Accepted(env, tenantID, rest, Anchor(first.entryHash, if rest == [] then [] else anchor.entryHashAfter))
    ensures Accepted(env, tenantID, [first] + rest, anchor)
  {
    hide EntryOk;
    var c := [first] + rest;
    var a := Anchor(first.entryHash, if rest == [] then [] else anchor.entryHashAfter);
    forall i | 0 <= i < |c| ensures Linked(c, anchor, i) && EntryOk(env, tenantID, c[i]) {
      if i > 0 {
        assert c[i] == rest[i - 1];
        assert Linked(rest, a, i - 1) && EntryOk(env, tenantID, rest[i - 1]);
      }
    }
  }

  /** Every chain built record by record is accepted, whole, under matching or empty anchors. */
  lemma {:induction false} BuiltChainAccepted(
    env: Env, tenantID: Text, prev: seq<Octet>, entries: seq<Entry>, anchor: Anchor
  )
    requires HashSized(env) && |prev| == HASH_SIZE
    requires anchor.prevHashBefore in [[], Hex(prev)]
    requires var c := BuildChain(env, tenantID, prev, entries);
             anchor.entryHashAfter == [] || (c != [] && anchor.entryHashAfter == c[|c| - 1].entryHash)
    ensures Accepted(env, tenantID, BuildChain(env, tenantID, prev, entries), anchor)
    decreases entries
  {
    hide Accepted, EntryOk, BuildRecord, Unhex, Hex;
    if entries == [] {
      NothingAccepted(env, tenantID, anchor);
    } else {
      BuiltRecordOk(env, tenantID, prev, entries[0]);
      var first := BuildRecord(env, tenantID, prev, entries[0]);
      var next := Unhex(first.entryHash).value;
      var rest := BuildChain(env, tenantID, next, entries[1..]);
      var a := Anchor(first.entryHash, if rest == [] then [] else anchor.entryHashAfter);
      BuiltChainAccepted(env, tenantID, next, entries[1..], a);
      AcceptedCons(env, tenantID, first, rest, anchor);
    }
  }
}
