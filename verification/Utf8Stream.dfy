/**
  Streaming decoded text: after each token the well-formed part of what is pending is printed, and
  the rest waits.  What is printed never depends on where the chunks were cut.
 */
module Utf8Stream {
  import opened Bytes
  import opened Utf8

  /** The text that is waiting to be printed. */
  class PendingText {
    var text: Bytes

    constructor ()
      ensures text == []
    {
      text := [];
    }

    method Append(chunk: Bytes)
      modifies this
      ensures text == old(text) + chunk
    {
      text := text + chunk;
    }

    /** Take the longest well-formed prefix off the pending text. */
    method TakeValidUtf8Prefix() returns (ready: Bytes)
      modifies this
      ensures ready + text == old(text) && |ready| == ValidLength(old(text))
      ensures IsText(ready) && ValidLength(text) == 0
      ensures forall k :: |ready| < k <= |old(text)| ==> !IsText(old(text)[..k])
    {
      ghost var before := text;
      var invalid := FindInvalid(text);
      RestIsStuck(before);
      if invalid == 0 {
        assert before[..0] == [] && before[0..] == before;
        return [];
      }
      if invalid == |text| {
        ready := text;
        text := [];
        assert before[..|before|] == before && before[|before|..] == [];
        return;
      }
      ready := text[..invalid];
      text := text[invalid..];
    }
  }

  /** Nothing more can be printed of what is left. */
  lemma RestIsStuck(s: Bytes)
    ensures ValidLength(s[ValidLength(s)..]) == 0
  {
    var k := ValidLength(s);
    ValidIsText(s);
    TextIsPassed(s[..k], s[k..]);
    assert s[..k] + s[k..] == s;
  }

  function Concat(chunks: seq<Bytes>): Bytes {
    if chunks == [] then [] else Concat(chunks[..|chunks| - 1]) + chunks[|chunks| - 1]
  }

  lemma {:induction false} ConcatAppend(a: seq<Bytes>, c: Bytes)
    ensures Concat(a + [c]) == Concat(a) + c
  {
    assert (a + [c])[..|a + [c]| - 1] == a;
  }

  /**
    How many of the chunks the loop feeds: it stops after the one that reaches the token limit, so it
    always feeds the first, whatever the limit.
   */
  function Fed(chunks: nat, limit: int): nat {
    if chunks == 0 then 0 else if limit <= 1 then 1 else if limit < chunks then limit else chunks
  }

  lemma FedIs(chunks: nat, limit: int, generated: nat)
    requires generated <= chunks && (generated <= 1 || generated <= limit)
    requires generated == chunks || (generated > 0 && generated >= limit)
    ensures Fed(chunks, limit) == generated
  {
  }

  /** What the loop has printed and still holds after feeding `fed`. */
  ghost predicate Streamed(fed: Bytes, printed: Bytes, pending: Bytes) {
    printed == fed[..ValidLength(fed)] && pending == fed[ValidLength(fed)..]
  }

  lemma StreamMore(fed: Bytes, printed: Bytes, pending: Bytes, chunk: Bytes, ready: Bytes, rest: Bytes)
    requires Streamed(fed, printed, pending) && ready + rest == pending + chunk && |ready| == ValidLength(pending + chunk)
    ensures Streamed(fed + chunk, printed + ready, rest)
  {
    hide ValidLength, IsText;
    var all := fed + chunk;
    ValidIsText(fed);
    assert all == printed + (pending + chunk) by { assert fed == printed + pending; }
    TextIsPassed(printed, pending + chunk);
    assert ValidLength(all) == |printed| + |ready|;
    assert all == (printed + ready) + rest;
  }

  /** Printed is the longest well-formed prefix of what was fed, and the last print is all the rest. */
  ghost predicate PrintsAll(fed: Bytes, printed: Bytes, flush: Bytes) {
    printed + flush == fed && IsText(printed) && forall k :: |printed| < k <= |fed| ==> !IsText(fed[..k])
  }

  lemma StreamEnds(fed: Bytes, printed: Bytes, pending: Bytes)
    requires Streamed(fed, printed, pending)
    ensures PrintsAll(fed, printed, pending)
  {
    hide ValidLength, IsText;
    ValidIsText(fed);
    forall k | |printed| < k <= |fed| ensures !IsText(fed[..k]) {
      if IsText(fed[..k]) { ValidIsLongest(fed, k); }
    }
  }

  /** What is printed, and when, depends on the bytes fed and not on how they were cut. */
  lemma PrintsOneWay(fed: Bytes, p: Bytes, f: Bytes, q: Bytes, g: Bytes)
    requires PrintsAll(fed, p, f) && PrintsAll(fed, q, g)
    ensures p == q && f == g
  {
    hide IsText;
    assert p == fed[..|p|] && q == fed[..|q|] && f == fed[|p|..] && g == fed[|q|..];
  }

  /** No print of the loop is empty, and none cuts a character. */
  ghost predicate AllText(pieces: seq<Bytes>) { forall i :: 0 <= i < |pieces| ==> pieces[i] != [] && IsText(pieces[i]) }

  /** The bytes of the first `n` chunks. */
  function FirstChunks(chunks: seq<Bytes>, n: nat): Bytes
    requires n <= |chunks|
  {
    Concat(chunks[..n])
  }

  lemma Start(chunks: seq<Bytes>)
    ensures Streamed(FirstChunks(chunks, 0), Concat([]), []) && AllText([])
  {
  }

  lemma TakeOneMore(chunks: seq<Bytes>, n: nat)
    requires n < |chunks|
    ensures FirstChunks(chunks, n + 1) == FirstChunks(chunks, n) + chunks[n]
  {
    assert chunks[..n + 1] == chunks[..n] + [chunks[n]];
    ConcatAppend(chunks[..n], chunks[n]);
  }

  /** Append a chunk to what is pending, and print what is well-formed. */
  method Feed(pending: PendingText, chunk: Bytes, pieces: seq<Bytes>, ghost fed: Bytes) returns (pieces': seq<Bytes>)
    requires Streamed(fed, Concat(pieces), pending.text) && AllText(pieces)
    modifies pending
    ensures Streamed(fed + chunk, Concat(pieces'), pending.text) && AllText(pieces')
  {
    hide ValidLength, IsText, Streamed, Concat;
    ghost var waiting, printed := pending.text, Concat(pieces);
    pending.Append(chunk);
    var ready := pending.TakeValidUtf8Prefix();
    StreamMore(fed, printed, waiting, chunk, ready, pending.text);
    if ready != [] {
      ConcatAppend(pieces, ready);
      pieces' := pieces + [ready];
    } else {
      assert printed + ready == printed;
      pieces' := pieces;
    }
  }

  /** One turn of the generation loop. */
  method Turn(pending: PendingText, chunks: seq<Bytes>, generated: nat, pieces: seq<Bytes>) returns (pieces': seq<Bytes>)
    requires generated < |chunks| && Streamed(FirstChunks(chunks, generated), Concat(pieces), pending.text) && AllText(pieces)
    modifies pending
    ensures Streamed(FirstChunks(chunks, generated + 1), Concat(pieces'), pending.text) && AllText(pieces')
  {
    hide *;
    TakeOneMore(chunks, generated);
    pieces' := Feed(pending, chunks[generated], pieces, FirstChunks(chunks, generated));
  }

  /**
    The generation loop over the decoded text of each token.  `pieces` are the separate prints of the
    loop, `flush` the last print after it.
   */
  method Generate(chunks: seq<Bytes>, limit: int) returns (pieces: seq<Bytes>, flush: Bytes)
    ensures Streamed(FirstChunks(chunks, Fed(|chunks|, limit)), Concat(pieces), flush) && AllText(pieces)
  {
    hide *;
    Start(chunks);
    var pending := new PendingText();
    var generated := 0;
    pieces := [];
    while generated < |chunks|
      invariant generated <= |chunks| && (generated == 0 || generated < limit)
      invariant Streamed(FirstChunks(chunks, generated), Concat(pieces), pending.text) && AllText(pieces)
    {
      pieces := Turn(pending, chunks, generated, pieces);
      generated := generated + 1;
      if generated >= limit { break; }
    }
    FedIs(|chunks|, limit, generated);
    flush := pending.text;
  }
}
