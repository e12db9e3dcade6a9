/** UTF-8 as section 4 of RFC 3629 defines its well-formed byte sequences, and the text-mode
    reading Python applies on top of it (strict decoding, universal newlines, readlines). */
module Utf8 {
  import opened Wrappers
  import opened FileSystem
  import Paths

  predicate IsScalar(cp: int) { 0 <= cp < 0xD800 || 0xE000 <= cp <= 0x10FFFF }

  predicate IsTail(b: byte) { 0x80 <= b <= 0xBF }

  /** The length of the well-formed character at the start of `s`, 0 when none starts there
      (the UTF8-char rule of RFC 3629 section 4). */
  function CharLen(s: seq<byte>): (n: nat)
    ensures n <= |s| && n <= 4
  {
    if s == [] then 0
    else
      var b0 := s[0];
      if b0 <= 0x7F then 1
      else if 0xC2 <= b0 <= 0xDF then
        if |s| >= 2 && IsTail(s[1]) then 2 else 0
      else if 0xE0 <= b0 <= 0xEF then
        var lo := if b0 == 0xE0 then 0xA0 else 0x80;
        var hi := if b0 == 0xED then 0x9F else 0xBF;
        if |s| >= 3 && lo <= s[1] <= hi && IsTail(s[2]) then 3 else 0
      else if 0xF0 <= b0 <= 0xF4 then
        var lo := if b0 == 0xF0 then 0x90 else 0x80;
        var hi := if b0 == 0xF4 then 0x8F else 0xBF;
        if |s| >= 4 && lo <= s[1] <= hi && IsTail(s[2]) && IsTail(s[3]) then 4 else 0
      else 0
  }

  /** The code point of the well-formed character of length `n` at the start of `s`: the lead
      byte's payload followed by six bits from each continuation byte. */
  function CodePoint(s: seq<byte>, n: nat): int
    requires 1 <= n <= |s| && n <= 4
  {
    if n == 1 then s[0] as int
    else if n == 2 then (s[0] as int - 0xC0) * 64 + (s[1] as int - 0x80)
    else if n == 3 then ((s[0] as int - 0xE0) * 64 + (s[1] as int - 0x80)) * 64 + (s[2] as int - 0x80)
    else (((s[0] as int - 0xF0) * 64 + (s[1] as int - 0x80)) * 64 + (s[2] as int - 0x80)) * 64 + (s[3] as int - 0x80)
  }

  /** Strict decoding: the code points, or None at the first ill-formed byte. */
  function Decode(s: seq<byte>): Option<seq<int>>
    decreases |s|
  {
    if s == [] then Some([])
    else
      var n := CharLen(s);
      if n == 0 then None
      else match Decode(s[n..])
        case None => None
        case Some(rest) => Some([CodePoint(s, n)] + rest)
  }

  predicate WellFormed(s: seq<byte>) { Decode(s).Some? }

  function EncodeChar(cp: int): (r: seq<byte>)
    requires IsScalar(cp)
    ensures 1 <= |r| <= 4
  {
    var q1 := cp / 64;
    var q2 := q1 / 64;
    var q3 := q2 / 64;
    if cp < 0x80 then [cp as byte]
    else if cp < 0x800 then [(0xC0 + q1) as byte, (0x80 + cp % 64) as byte]
    else if cp < 0x10000 then [(0xE0 + q2) as byte, (0x80 + q1 % 64) as byte, (0x80 + cp % 64) as byte]
    else [(0xF0 + q3) as byte, (0x80 + q2 % 64) as byte, (0x80 + q1 % 64) as byte, (0x80 + cp % 64) as byte]
  }

  function Encode(cps: seq<int>): seq<byte>
    requires forall i :: 0 <= i < |cps| ==> IsScalar(cps[i])
  {
    if cps == [] then [] else EncodeChar(cps[0]) + Encode(cps[1..])
  }

  /** The encoding of one scalar value is read back as exactly that character. */
  lemma EncodeCharDecodes(cp: int, rest: seq<byte>)
    requires IsScalar(cp)
    ensures var e := EncodeChar(cp);
      CharLen(e + rest) == |e| && CodePoint(e + rest, |e|) == cp
  {
    var e := EncodeChar(cp);
    assert (e + rest)[..|e|] == e;
    var q1 := cp / 64;
    var q2 := q1 / 64;
    assert cp == q1 * 64 + cp % 64;
    assert q1 == q2 * 64 + q1 % 64;
    assert q2 == (q2 / 64) * 64 + q2 % 64;
  }

  /** Decoding an encoding gives back the code points. */
  lemma {:induction false} DecodeEncode(cps: seq<int>)
    requires forall i :: 0 <= i < |cps| ==> IsScalar(cps[i])
    ensures Decode(Encode(cps)) == Some(cps)
  {
    if cps != [] {
      var e := EncodeChar(cps[0]);
      var rest := Encode(cps[1..]);
      EncodeCharDecodes(cps[0], rest);
      assert (e + rest)[|e|..] == rest;
      DecodeEncode(cps[1..]);
      assert [cps[0]] + cps[1..] == cps;
    }
  }

  /** A well-formed character is the encoding of the scalar value it denotes. */
  lemma CharIsEncoding(s: seq<byte>)
    requires CharLen(s) > 0
    ensures IsScalar(CodePoint(s, CharLen(s)))
    ensures EncodeChar(CodePoint(s, CharLen(s))) == s[..CharLen(s)]
  {
    var n := CharLen(s);
    if n == 2 {
      TwoByteChar(s);
    } else if n == 3 {
      ThreeByteChar(s);
    } else if n == 4 {
      FourByteChar(s);
    }
  }

  lemma SplitSix(a: int, t: int)
    requires 0 <= t < 64
    ensures (a * 64 + t) / 64 == a && (a * 64 + t) % 64 == t
  {
  }

  lemma TwoByteChar(s: seq<byte>)
    requires CharLen(s) == 2
    ensures IsScalar(CodePoint(s, 2)) && EncodeChar(CodePoint(s, 2)) == s[..2]
  {
    SplitSix(s[0] as int - 0xC0, s[1] as int - 0x80);
  }

  lemma ThreeByteChar(s: seq<byte>)
    requires CharLen(s) == 3
    ensures IsScalar(CodePoint(s, 3)) && EncodeChar(CodePoint(s, 3)) == s[..3]
  {
    var q1 := (s[0] as int - 0xE0) * 64 + (s[1] as int - 0x80);
    SplitSix(q1, s[2] as int - 0x80);
    SplitSix(s[0] as int - 0xE0, s[1] as int - 0x80);
  }

  lemma FourByteChar(s: seq<byte>)
    requires CharLen(s) == 4
    ensures IsScalar(CodePoint(s, 4)) && EncodeChar(CodePoint(s, 4)) == s[..4]
  {
    var q2 := (s[0] as int - 0xF0) * 64 + (s[1] as int - 0x80);
    var q1 := q2 * 64 + (s[2] as int - 0x80);
    SplitSix(q1, s[3] as int - 0x80);
    SplitSix(q2, s[2] as int - 0x80);
    SplitSix(s[0] as int - 0xF0, s[1] as int - 0x80);
  }

  /** Whatever decodes is a sequence of scalar values whose encoding is the input. */
  lemma {:induction false} DecodedIsEncoding(s: seq<byte>)
    requires WellFormed(s)
    ensures forall i :: 0 <= i < |Decode(s).value| ==> IsScalar(Decode(s).value[i])
    ensures Encode(Decode(s).value) == s
    decreases |s|
  {
    if s != [] {
      var n := CharLen(s);
      CharIsEncoding(s);
      DecodedIsEncoding(s[n..]);
      var cps := Decode(s).value;
      assert cps[1..] == Decode(s[n..]).value;
      assert s[..n] + s[n..] == s;
    }
  }

  /** Text-mode line reading: "\r\n" and a lone "\r" both become "\n" (universal newlines). */
  const LF := 10
  const CR := 13

  function Translate(t: seq<int>): seq<int>
    decreases |t|
  {
    if t == [] then []
    else if t[0] == CR then
      if |t| >= 2 && t[1] == LF then [LF] + Translate(t[2..]) else [LF] + Translate(t[1..])
    else [t[0]] + Translate(t[1..])
  }

  /** The length of the first line, its newline included. */
  function LineLen(t: seq<int>): (k: nat)
    requires t != []
    ensures 1 <= k <= |t|
    ensures forall i :: 0 <= i < k - 1 ==> t[i] != LF
    ensures k < |t| ==> t[k - 1] == LF
  {
    if t[0] == LF || |t| == 1 then 1 else 1 + LineLen(t[1..])
  }

  /** readlines(): each line keeps its newline; the last one may lack it. */
  function Lines(t: seq<int>): seq<seq<int>>
    decreases |t|
  {
    if t == [] then [] else [t[..LineLen(t)]] + Lines(t[LineLen(t)..])
  }

  function Flatten(ls: seq<seq<int>>): seq<int>
  {
    if ls == [] then [] else ls[0] + Flatten(ls[1..])
  }

  /** The lines put back together are the text, so different texts have different lines. */
  lemma {:induction false} FlattenLines(t: seq<int>)
    ensures Flatten(Lines(t)) == t
    decreases |t|
  {
    if t != [] {
      var k := LineLen(t);
      var ls := Lines(t);
      assert ls == [t[..k]] + Lines(t[k..]);
      assert ls[0] == t[..k] && ls[1..] == Lines(t[k..]);
      FlattenLines(t[k..]);
      assert Flatten(ls) == t[..k] + Flatten(Lines(t[k..]));
      RejoinAt(t, k);
    }
  }

  lemma RejoinAt(t: seq<int>, k: nat)
    requires k <= |t|
    ensures t[..k] + t[k..] == t
  {
  }

  lemma LinesInjective(a: seq<int>, b: seq<int>)
    ensures Lines(a) == Lines(b) <==> a == b
  {
    FlattenLines(a);
    FlattenLines(b);
  }

  /** What opening and reading a file in text mode gives. */
  datatype TextRead =
    | TextLines(lines: seq<seq<int>>)
    | NotFound
    | IsADirectory
    | UndecodableText

  function ReadLines(fs: Fs, p: Paths.Path): (r: TextRead)
    ensures r.TextLines? <==> IsFile(fs, p) && WellFormed(fs[p].content)
    ensures r.TextLines? ==> Flatten(r.lines) == Translate(Decode(fs[p].content).value)
  {
    if p !in fs then NotFound
    else match fs[p]
      case Dir(_, _) => IsADirectory
      case File(content, _) =>
        match Decode(content)
        case None => UndecodableText
        case Some(text) =>
          FlattenLines(Translate(text));
          TextLines(Lines(Translate(text)))
  }

  /** Reading in text mode hides the difference between "\r" and "\n": a one-byte change need not
      change the lines read. */
  lemma CarriageReturnReadsAsNewline()
    ensures Decode([0x61, 0x0D]) == Some([0x61, CR])
    ensures Decode([0x61, 0x0A]) == Some([0x61, LF])
    ensures Lines(Translate([0x61, CR])) == Lines(Translate([0x61, LF]))
  {
    var a: seq<byte> := [0x61, 0x0D];
    var a1: seq<byte> := [0x0D];
    assert a[1..] == a1 && a1[1..] == [];
    assert CharLen(a1) == 1 && CodePoint(a1, 1) == CR;
    assert Decode(a1[1..]) == Some([]);
    assert [CodePoint(a1, 1)] + [] == [CR];
    assert Decode(a1) == Some([CR]);
    assert CharLen(a) == 1 && CodePoint(a, 1) == 0x61;
    assert [CodePoint(a, 1)] + [CR] == [0x61, CR];
    assert Decode(a) == Some([0x61, CR]);
    var b: seq<byte> := [0x61, 0x0A];
    var b1: seq<byte> := [0x0A];
    assert b[1..] == b1 && b1[1..] == [];
    assert CharLen(b1) == 1 && CodePoint(b1, 1) == LF;
    assert Decode(b1[1..]) == Some([]);
    assert [CodePoint(b1, 1)] + [] == [LF];
    assert Decode(b1) == Some([LF]);
    assert CharLen(b) == 1 && CodePoint(b, 1) == 0x61;
    assert [CodePoint(b, 1)] + [LF] == [0x61, LF];
    assert Decode(b) == Some([0x61, LF]);
    var ta: seq<int> := [0x61, CR];
    assert ta[1..] == [CR] && [CR][1..] == [];
    assert Translate(ta) == [0x61, LF];
    var tb: seq<int> := [0x61, LF];
    assert tb[1..] == [LF] && [LF][1..] == [];
    assert Translate(tb) == [0x61, LF];
  }
}
