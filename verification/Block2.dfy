/** CoAP Block2 slicing of a response (esipa/coap.go; sections 2.2 and 2.4 of RFC 7959). */
module Block2 {
  import opened Octets

  /** The size exponents 0 to 6: blocks of 16 to 1024 octets. */
  type Szx = x: int | 0 <= x <= 6

  const RESPONSE_SZX: Szx := 6
  const NUMBER_LIMIT := 0x10_0000

  function Size(szx: Szx): (r: nat)
    ensures r >= 16
  {
    match szx
    case 0 => 16
    case 1 => 32
    case 2 => 64
    case 3 => 128
    case 4 => 256
    case 5 => 512
    case _ => 1024
  }

  datatype Piece = Piece(payload: seq<Octet>, more: bool)

  function Min(a: nat, b: nat): (r: nat) { if a < b then a else b }

  /** coapBlock2Chunk: a block that starts past the end is an error, and so is a number of more than 20 bits. */
  function Chunk(response: seq<Octet>, szx: Szx, number: nat): (r: Option<Piece>) {
    var start := number * Size(szx);
    if start > |response| || number >= NUMBER_LIMIT then None
    else
      var end := Min(start + Size(szx), |response|);
      Some(Piece(response[start..end], end < |response|))
  }

  datatype Opening = Whole(payload: seq<Octet>) | First(piece: Option<Piece>)

  /** coapFirstBlock2Response: a short response goes whole, a long one starts with its first block. */
  function Open(response: seq<Octet>): (r: Opening) {
    if |response| <= Size(RESPONSE_SZX) then Whole(response) else First(Chunk(response, RESPONSE_SZX, 0))
  }

  /** What a client has got, and whether there is more. */
  datatype Progress = Progress(got: seq<Octet>, more: bool)

  /**
   A client that asks for the block that starts where its received octets end, with the size
   it chooses each time, and stops when there is no more; None is an error.
   */
  function Fetch(response: seq<Octet>, sizes: seq<Szx>): (r: Option<Progress>) {
    if sizes == [] then Some(Progress([], true))
    else
      var before :- Fetch(response, sizes[..|sizes| - 1]);
      if !before.more then Some(before)
      else
        var szx := sizes[|sizes| - 1];
        var piece :- Chunk(response, szx, |before.got| / Size(szx));
        Some(Progress(before.got + piece.payload, piece.more))
  }

  predicate Shrinking(sizes: seq<Szx>) { forall i, j :: 0 <= i < j < |sizes| ==> sizes[j] <= sizes[i] }

  /** The last block of the smallest size asked for still has a number of 20 bits. */
  predicate Addressable(response: seq<Octet>, sizes: seq<Szx>) {
    forall i :: 0 <= i < |sizes| ==> |response| <= NUMBER_LIMIT * Size(sizes[i])
  }

  function Blocks(q: nat, szx: Szx): (r: nat) { q * Size(szx) }

  /** The offset is a whole number of blocks. */
  ghost predicate AlignedTo(n: nat, szx: Szx) { exists q: nat :: n == Blocks(q, szx) }

  lemma {:induction false} DoubleBlocks(q: nat, szx: Szx)
    requires szx > 0
    ensures Blocks(q, szx) == Blocks(2 * q, szx - 1)
  {
    assert Size(szx) == 2 * Size(szx - 1);
    hide Size;
  }

  /** An offset that is a multiple of one block size is a multiple of every smaller one. */
  lemma {:induction false} SmallerAligned(n: nat, a: Szx, b: Szx)
    requires b <= a && AlignedTo(n, a)
    ensures AlignedTo(n, b)
    decreases a
  {
    hide Blocks;
    if b < a {
      var q: nat :| n == Blocks(q, a);
      DoubleBlocks(q, a);
      SmallerAligned(n, a - 1, b);
    }
  }

  lemma {:induction false} AlignedNext(n: nat, szx: Szx)
    requires AlignedTo(n, szx)
    ensures AlignedTo(n + Size(szx), szx)
  {
    hide Size;
    var q: nat :| n == Blocks(q, szx);
    assert Blocks(q + 1, szx) == n + Size(szx);
  }

  lemma {:induction false} StartAligned(szx: Szx)
    ensures AlignedTo(0, szx)
  {
    assert Blocks(0, szx) == 0;
  }

  lemma {:induction false} BlocksDivide(q: nat, szx: Szx)
    ensures Blocks(q, szx) / Size(szx) == q
  {
    match szx
    case 0 => assert q * 16 / 16 == q;
    case 1 => assert q * 32 / 32 == q;
    case 2 => assert q * 64 / 64 == q;
    case 3 => assert q * 128 / 128 == q;
    case 4 => assert q * 256 / 256 == q;
    case 5 => assert q * 512 / 512 == q;
    case _ => assert q * 1024 / 1024 == q;
  }

  /** The number of the block at an aligned offset leads back to the offset. */
  lemma {:induction false} NumberOf(n: nat, szx: Szx)
    requires AlignedTo(n, szx)
    ensures n / Size(szx) * Size(szx) == n && (n < NUMBER_LIMIT * Size(szx) ==> n / Size(szx) < NUMBER_LIMIT)
  {
    hide Size;
    var q: nat :| n == Blocks(q, szx);
    BlocksDivide(q, szx);
    assert q >= NUMBER_LIMIT ==> q * Size(szx) >= NUMBER_LIMIT * Size(szx);
  }

  /** The block at an aligned offset is the next stretch of the response. */
  lemma {:induction false} NextChunk(response: seq<Octet>, szx: Szx, n: nat)
    requires AlignedTo(n, szx) && (n < |response| || n == 0) && |response| <= NUMBER_LIMIT * Size(szx)
    ensures var end := Min(n + Size(szx), |response|);
            Chunk(response, szx, n / Size(szx)) == Some(Piece(response[n..end], end < |response|))
  {
    NumberOf(n, szx);
    hide Size, AlignedTo;
  }

  /** Where a client stands after any number of requests. */
  ghost predicate InStep(response: seq<Octet>, sizes: seq<Szx>, p: Progress) {
    && p.got <= response
    && (p.more ==> |p.got| >= 16 * |sizes|)
    && (if sizes == [] then p == Progress([], true)
        else (p.more <==> |p.got| < |response|) && (p.more ==> AlignedTo(|p.got|, sizes[|sizes| - 1])))
  }

  /**
   The pieces are exactly the response so far, whatever sizes the client switches down to on
   the way, and the more flag is false only on the piece that ends it.
   */
  lemma {:induction false} PiecesInStep(response: seq<Octet>, sizes: seq<Szx>)
    requires Shrinking(sizes) && Addressable(response, sizes)
    ensures Fetch(response, sizes).Some? && InStep(response, sizes, Fetch(response, sizes).value)
  {
    if sizes != [] {
      var n := |sizes| - 1;
      PiecesInStep(response, sizes[..n]);
      var before := Fetch(response, sizes[..n]).value;
      if before.more {
        var szx, at := sizes[n], |before.got|;
        Aligned(response, sizes, before);
        assert |response| <= NUMBER_LIMIT * Size(szx);
        NextChunk(response, szx, at);
        PieceFits(response, szx, before, 16 * n);
      }
    }
  }

  lemma {:induction false} Aligned(response: seq<Octet>, sizes: seq<Szx>, before: Progress)
    requires sizes != [] && Shrinking(sizes) && InStep(response, sizes[..|sizes| - 1], before) && before.more
    ensures AlignedTo(|before.got|, sizes[|sizes| - 1]) && (|before.got| < |response| || |before.got| == 0)
  {
    var n := |sizes| - 1;
    if n > 0 {
      assert sizes[..n][n - 1] == sizes[n - 1] && sizes[n] <= sizes[n - 1];
      SmallerAligned(|before.got|, sizes[n - 1], sizes[n]);
    } else {
      StartAligned(sizes[n]);
    }
  }

  lemma {:induction false} PieceFits(response: seq<Octet>, szx: Szx, before: Progress, low: nat)
    requires before.got <= response && AlignedTo(|before.got|, szx) && |before.got| >= low
    ensures var at := |before.got|;
            var end := Min(at + Size(szx), |response|);
            && before.got + response[at..end] == response[..end]
            && (end < |response| ==> AlignedTo(end, szx) && end >= low + 16)
  {
    var at := |before.got|;
    AlignedNext(at, szx);
    assert response[..at] == before.got;
  }

  /** A client gets the whole response after at most one request for every 16 octets, and one more. */
  lemma {:induction false} ClientCompletes(response: seq<Octet>, sizes: seq<Szx>)
    requires Shrinking(sizes) && Addressable(response, sizes) && |sizes| > |response| / 16
    ensures Fetch(response, sizes) == Some(Progress(response, false))
  {
    PiecesInStep(response, sizes);
    hide Fetch;
    var p := Fetch(response, sizes).value;
    assert !p.more;
    assert |p.got| == |response| && p.got == response[..|p.got|] && response[..|response|] == response;
  }

  /**
   The opening answer is the response itself, or a client's first step: from there, whatever
   sizes it switches down to, the client gets the whole response.
   */
  lemma {:induction false} OpeningCompletes(response: seq<Octet>, sizes: seq<Szx>)
    requires Shrinking(sizes) && Addressable(response, sizes) && |sizes| >= |response| / 16
    ensures match Open(response)
            case Whole(payload) => payload == response
            case First(piece) =>
              && piece.Some? && piece.value.more
              && Fetch(response, [RESPONSE_SZX]) == Some(Progress(piece.value.payload, true))
              && Fetch(response, [RESPONSE_SZX] + sizes) == Some(Progress(response, false))
  {
    if |response| > Size(RESPONSE_SZX) {
      var all := [RESPONSE_SZX] + sizes;
      assert |response| <= NUMBER_LIMIT * Size(sizes[0]) <= NUMBER_LIMIT * Size(RESPONSE_SZX);
      ClientCompletes(response, all);
      var one: seq<Szx> := [RESPONSE_SZX];
      assert one[..0] == [] && Fetch(response, one[..0]) == Some(Progress([], true));
      assert [] + response[..Size(RESPONSE_SZX)] == response[..Size(RESPONSE_SZX)];
    }
  }
}
