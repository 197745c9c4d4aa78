/**
  UTF-8 validation as the library does it, byte by byte, against the grammar of section 4 of
  RFC 3629: the scan stops exactly at the end of the longest well-formed prefix.
 */
module Utf8 {
  import opened Bytes

  // ---- the grammar of section 4 of RFC 3629 --------------------------------------------------------------

  predicate Tail(b: Byte) { 0x80 <= b <= 0xBF }

  predicate IsChar1(s: Bytes) { |s| == 1 && s[0] <= 0x7F }

  predicate IsChar2(s: Bytes) { |s| == 2 && 0xC2 <= s[0] <= 0xDF && Tail(s[1]) }

  predicate IsChar3(s: Bytes) {
    |s| == 3 && Tail(s[2]) &&
    (  (s[0] == 0xE0 && 0xA0 <= s[1] <= 0xBF) || (0xE1 <= s[0] <= 0xEC && Tail(s[1]))
    || (s[0] == 0xED && 0x80 <= s[1] <= 0x9F) || (0xEE <= s[0] <= 0xEF && Tail(s[1])))
  }

  predicate IsChar4(s: Bytes) {
    |s| == 4 && Tail(s[2]) && Tail(s[3]) &&
    (  (s[0] == 0xF0 && 0x90 <= s[1] <= 0xBF) || (0xF1 <= s[0] <= 0xF3 && Tail(s[1]))
    || (s[0] == 0xF4 && 0x80 <= s[1] <= 0x8F))
  }

  /** One character: a `UTF8-char` of the grammar. */
  predicate IsChar(s: Bytes) { IsChar1(s) || IsChar2(s) || IsChar3(s) || IsChar4(s) }

  /** A run of characters: the `UTF8-octets` of the grammar. */
  ghost predicate IsText(s: Bytes)
    decreases |s|
  {
    s == [] || exists n :: 0 < n <= |s| && IsChar(s[..n]) && IsText(s[n..])
  }

  // ---- the library's decoder -------------------------------------------------------------------------------

  datatype Error = NotEnoughRoom | InvalidLead | IncompleteSequence | OverlongSequence | InvalidCodePoint

  /** A decoded code point, or why there is none. */
  datatype Decoded = Code(point: nat) | Fail(error: Error)

  /** How many bytes the lead byte announces; 0 when it announces nothing. */
  function SequenceLength(lead: Byte): nat {
    if lead < 0x80 then 1
    else if lead / 32 == 0x6 then 2
    else if lead / 16 == 0xE then 3
    else if lead / 8 == 0x1E then 4
    else 0
  }

  predicate IsTrail(b: Byte) { b / 64 == 0x2 }

  /** What stepping on to byte `i` finds there. */
  function Step(s: Bytes, i: nat): (e: Decoded) {
    if i >= |s| then Fail(NotEnoughRoom) else if !IsTrail(s[i]) then Fail(IncompleteSequence) else Code(s[i])
  }

  function Sequence2(s: Bytes): Decoded
    requires |s| > 0
  {
    var a := Step(s, 1);
    if a.Fail? then a else Code((s[0] * 0x40) % 0x800 + a.point % 0x40)
  }

  function Sequence3(s: Bytes): Decoded
    requires |s| > 0
  {
    var a := Step(s, 1);
    if a.Fail? then a
    else
      var b := Step(s, 2);
      if b.Fail? then b else Code((s[0] * 0x1000) % 0x10000 + (a.point * 0x40) % 0x1000 + b.point % 0x40)
  }

  function Sequence4(s: Bytes): Decoded
    requires |s| > 0
  {
    var a := Step(s, 1);
    if a.Fail? then a
    else
      var b := Step(s, 2);
      if b.Fail? then b
      else
        var c := Step(s, 3);
        if c.Fail? then c
        else Code((s[0] * 0x40000) % 0x200000 + (a.point * 0x1000) % 0x40000 + (b.point * 0x40) % 0x1000 + c.point % 0x40)
  }

  predicate IsSurrogate(cp: nat) { 0xD800 <= cp <= 0xDFFF }

  predicate IsOverlong(cp: nat, length: nat) {
    if cp < 0x80 then length != 1 else if cp < 0x800 then length != 2 else cp < 0x10000 && length != 3
  }

  /** The length of the character at the front, or why there is none. */
  datatype Next = Char(length: nat) | Bad(error: Error)

  function ValidateNext(s: Bytes): Next {
    if s == [] then Bad(NotEnoughRoom)
    else
      var length := SequenceLength(s[0]);
      if length == 0 then Bad(InvalidLead)
      else
        var d := if length == 1 then Code(s[0]) else if length == 2 then Sequence2(s) else if length == 3 then Sequence3(s) else Sequence4(s);
        if d.Fail? then Bad(d.error)
        else if d.point > 0x10FFFF || IsSurrogate(d.point) then Bad(InvalidCodePoint)
        else if IsOverlong(d.point, length) then Bad(OverlongSequence)
        else Char(length)
  }

  // ---- the decoder accepts exactly the grammar's characters ------------------------------------------------

  lemma Accepts2(s: Bytes)
    requires |s| > 0 && SequenceLength(s[0]) == 2
    ensures ValidateNext(s) == Char(2) <==> |s| >= 2 && IsChar(s[..2])
    ensures ValidateNext(s).Bad? || ValidateNext(s) == Char(2)
  {
    if |s| >= 2 && IsTrail(s[1]) { assert (s[0] as int * 0x40) % 0x800 == (s[0] as int - 192) * 64; }
  }

  lemma Accepts3(s: Bytes)
    requires |s| > 0 && SequenceLength(s[0]) == 3
    ensures ValidateNext(s) == Char(3) <==> |s| >= 3 && IsChar(s[..3])
    ensures ValidateNext(s).Bad? || ValidateNext(s) == Char(3)
  {
    if |s| >= 3 && IsTrail(s[1]) && IsTrail(s[2]) {
      assert (s[0] as int * 0x1000) % 0x10000 == (s[0] as int - 224) * 4096;
      assert (s[1] as int * 0x40) % 0x1000 == (s[1] as int - 128) * 64;
    }
  }

  lemma Accepts4(s: Bytes)
    requires |s| > 0 && SequenceLength(s[0]) == 4
    ensures ValidateNext(s) == Char(4) <==> |s| >= 4 && IsChar(s[..4])
    ensures ValidateNext(s).Bad? || ValidateNext(s) == Char(4)
  {
    if |s| >= 4 && IsTrail(s[1]) && IsTrail(s[2]) && IsTrail(s[3]) {
      assert (s[0] as int * 0x40000) % 0x200000 == (s[0] as int - 240) * 0x40000;
      assert (s[1] as int * 0x1000) % 0x40000 == (s[1] as int - 128) * 4096;
      assert (s[2] as int * 0x40) % 0x1000 == (s[2] as int - 128) * 64;
    }
  }

  /** The decoder finds a character of length `n` at the front exactly when the grammar has one there. */
  lemma NextIsChar(s: Bytes, n: nat)
    ensures ValidateNext(s) == Char(n) <==> 0 < n <= |s| && IsChar(s[..n])
  {
    if s != [] {
      var k := SequenceLength(s[0]);
      if k == 2 { Accepts2(s); } else if k == 3 { Accepts3(s); } else if k == 4 { Accepts4(s); }
      if 0 < n <= |s| { assert s[..n][0] == s[0]; }
    }
  }

  // ---- the scan ----------------------------------------------------------------------------------------------

  /** How far the text goes: the end of the last character before the first bad one. */
  function ValidLength(s: Bytes): (k: nat)
    ensures k <= |s|
    decreases |s|
  {
    var n := ValidateNext(s);
    if n.Bad? then 0 else NextIsChar(s, n.length); n.length + ValidLength(s[n.length..])
  }

  lemma {:induction false} ValidIsText(s: Bytes)
    ensures IsText(s[..ValidLength(s)])
    decreases |s|
  {
    var n := ValidateNext(s);
    if n.Char? {
      NextIsChar(s, n.length);
      ValidIsText(s[n.length..]);
      var p, t := s[..ValidLength(s)], s[n.length..];
      assert |p| == n.length + ValidLength(t) && p[..n.length] == s[..n.length];
      assert p[n.length..] == t[..ValidLength(t)];
    }
  }

  /** Well-formed text at the front is scanned past, whatever follows it. */
  lemma {:induction false} TextIsPassed(e: Bytes, x: Bytes)
    requires IsText(e)
    ensures ValidLength(e + x) == |e| + ValidLength(x)
    decreases |e|
  {
    if e == [] {
      assert e + x == x;
    } else {
      var n :| 0 < n <= |e| && IsChar(e[..n]) && IsText(e[n..]);
      assert (e + x)[..n] == e[..n] && (e + x)[n..] == e[n..] + x;
      NextIsChar(e + x, n);
      TextIsPassed(e[n..], x);
    }
  }

  /** The scan finds the longest well-formed prefix: a prefix is well-formed only up to there. */
  lemma ValidIsLongest(s: Bytes, k: nat)
    requires k <= |s| && IsText(s[..k])
    ensures k <= ValidLength(s)
  {
    TextIsPassed(s[..k], s[k..]);
    assert s[..k] + s[k..] == s;
  }

  /** The scan as a loop over a moving position. */
  method FindInvalid(s: Bytes) returns (pos: nat)
    ensures pos == ValidLength(s)
    ensures pos <= |s| && IsText(s[..pos]) && forall k :: pos < k <= |s| ==> !IsText(s[..k])
  {
    pos := 0;
    while pos != |s|
      invariant pos <= |s| && ValidLength(s) == pos + ValidLength(s[pos..])
      decreases |s| - pos
    {
      var next := ValidateNext(s[pos..]);
      if next.Bad? { break; }
      NextIsChar(s[pos..], next.length);
      assert s[pos..][next.length..] == s[pos + next.length..];
      pos := pos + next.length;
    }
    ValidIsText(s);
    forall k | pos < k <= |s| ensures !IsText(s[..k]) {
      if IsText(s[..k]) { ValidIsLongest(s, k); }
    }
  }
}
