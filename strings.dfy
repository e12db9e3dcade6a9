/** ASCII string operations with Python's semantics (str.startswith, str.endswith, `in`,
    str.split, str.join, str.replace, str.lower, str.rfind). */
module Strings {

  predicate IsDigit(c: char) { '0' <= c <= '9' }
  predicate IsLowerAlpha(c: char) { 'a' <= c <= 'z' }
  predicate IsUpperAlpha(c: char) { 'A' <= c <= 'Z' }

  /** Python's `\w` restricted to ASCII. */
  predicate IsWordChar(c: char) { IsDigit(c) || IsLowerAlpha(c) || IsUpperAlpha(c) || c == '_' }

  function LowerChar(c: char): char
  {
    if IsUpperAlpha(c) then (c as int + 32) as char else c
  }

  /** str.lower() on ASCII text. */
  function Lower(s: string): (r: string)
    ensures |r| == |s|
    ensures forall i :: 0 <= i < |s| ==> r[i] == LowerChar(s[i])
  {
    seq(|s|, i requires 0 <= i < |s| => LowerChar(s[i]))
  }

  predicate StartsWith(s: string, prefix: string)
  {
    |prefix| <= |s| && s[..|prefix|] == prefix
  }

  predicate EndsWith(s: string, suffix: string)
  {
    |suffix| <= |s| && s[|s| - |suffix|..] == suffix
  }

  /** str.endswith(tuple): true when any of the suffixes ends the string. */
  predicate EndsWithAny(s: string, suffixes: seq<string>)
  {
    exists k :: 0 <= k < |suffixes| && EndsWith(s, suffixes[k])
  }

  /** Occurrence of `sub` at position `i` of `s`. */
  predicate OccursAt(s: string, sub: string, i: int)
  {
    0 <= i && i + |sub| <= |s| && s[i..i + |sub|] == sub
  }

  /** Python's `sub in s` on strings. */
  predicate Contains(s: string, sub: string)
  {
    exists i :: 0 <= i <= |s| && OccursAt(s, sub, i)
  }

  lemma EmptyContained(s: string)
    ensures Contains(s, "")
  {
    assert OccursAt(s, "", 0);
  }

  lemma ContainsPrefix(s: string, sub: string)
    requires StartsWith(s, sub)
    ensures Contains(s, sub)
  {
    assert OccursAt(s, sub, 0);
  }

  /** str.rfind(c) for one character: the last index of `c`, or -1. */
  function LastIndexOf(s: string, c: char): (r: int)
    ensures -1 <= r < |s|
    ensures r >= 0 ==> s[r] == c
    ensures forall j :: r < j < |s| ==> s[j] != c
  {
    if s == [] then -1
    else if s[|s| - 1] == c then |s| - 1
    else LastIndexOf(s[..|s| - 1], c)
  }

  /** str.split(sep) for a one-character separator: never empty, one more piece than separators. */
  function Split(s: string, sep: char): (r: seq<string>)
    ensures |r| >= 1
    decreases |s|
  {
    if s == [] then [""]
    else
      var rest := Split(s[1..], sep);
      if s[0] == sep then [""] + rest else [[s[0]] + rest[0]] + rest[1..]
  }

  /** sep.join(pieces). */
  function Join(pieces: seq<string>, sep: string): string
  {
    if pieces == [] then ""
    else if |pieces| == 1 then pieces[0]
    else pieces[0] + sep + Join(pieces[1..], sep)
  }

  lemma {:induction false} SplitPiecesHaveNoSeparator(s: string, sep: char)
    ensures forall k :: 0 <= k < |Split(s, sep)| ==> sep !in Split(s, sep)[k]
    decreases |s|
  {
    if s != [] {
      SplitPiecesHaveNoSeparator(s[1..], sep);
    }
  }

  /** Joining the pieces of a split restores the string. */
  lemma {:induction false} JoinSplit(s: string, sep: char)
    ensures Join(Split(s, sep), [sep]) == s
    decreases |s|
  {
    if s != [] {
      var c, tail := s[0], s[1..];
      ConsParts(s, []);
      var rest := Split(tail, sep);
      JoinSplit(tail, sep);
      SplitCons(c, tail, sep);
      JoinCons(rest[0], rest[1..], [sep]);
      assert [rest[0]] + rest[1..] == rest;
      if c == sep {
        JoinCons("", rest, [sep]);
        assert Join(Split(s, sep), [sep]) == "" + [sep] + tail;
      } else {
        JoinCons([c] + rest[0], rest[1..], [sep]);
        if rest[1..] != [] {
          Regroup([c], rest[0], [sep] + Join(rest[1..], [sep]));
          Regroup(rest[0], [sep], Join(rest[1..], [sep]));
          Regroup([c] + rest[0], [sep], Join(rest[1..], [sep]));
        }
        assert Join(Split(s, sep), [sep]) == [c] + tail;
      }
    }
  }

  /** Join unfolded once on a list given as its first piece and the rest. */
  lemma JoinCons(p: string, ps: seq<string>, sep: string)
    ensures Join([p] + ps, sep) == if ps == [] then p else p + sep + Join(ps, sep)
  {
    assert ([p] + ps)[1..] == ps;
  }

  /** Splitting a join of separator-free pieces gives the pieces back. */
  lemma {:induction false} SplitJoin(pieces: seq<string>, sep: char)
    requires |pieces| >= 1
    requires forall k :: 0 <= k < |pieces| ==> sep !in pieces[k]
    ensures Split(Join(pieces, [sep]), sep) == pieces
    decreases |pieces|, |pieces[0]|
  {
    if |pieces| == 1 {
      SplitOfSeparatorFree(pieces[0], sep);
    } else if pieces[0] == "" {
      var tail := Join(pieces[1..], [sep]);
      assert Join(pieces, [sep]) == [sep] + tail;
      assert ([sep] + tail)[1..] == tail;
      SplitJoin(pieces[1..], sep);
      assert [""] + pieces[1..] == pieces;
    } else {
      var p0 := pieces[0];
      var shorter := [p0[1..]] + pieces[1..];
      assert shorter[1..] == pieces[1..];
      assert forall k :: 0 <= k < |shorter| ==> sep !in shorter[k] by {
        forall k | 0 <= k < |shorter| ensures sep !in shorter[k] {
          if k == 0 {
            assert forall j :: 0 <= j < |p0[1..]| ==> p0[1..][j] == p0[j + 1];
          }
        }
      }
      SplitJoin(shorter, sep);
      var whole := Join(pieces, [sep]);
      assert whole == p0 + [sep] + Join(pieces[1..], [sep]);
      assert whole[0] == p0[0];
      assert whole[1..] == Join(shorter, [sep]);
      var rest := Split(whole[1..], sep);
      assert rest == shorter;
      assert [p0[0]] + p0[1..] == p0;
      assert [[p0[0]] + rest[0]] + rest[1..] == pieces;
    }
  }

  lemma {:induction false} SplitOfSeparatorFree(s: string, sep: char)
    requires sep !in s
    ensures Split(s, sep) == [s]
    decreases |s|
  {
    if s != [] {
      assert sep !in s[1..] by {
        assert forall j :: 0 <= j < |s[1..]| ==> s[1..][j] == s[j + 1];
      }
      SplitOfSeparatorFree(s[1..], sep);
      assert [s[0]] + s[1..] == s;
    }
  }

  /** Splitting `a + sep + b` gives the pieces of `a` followed by the pieces of `b`. */
  lemma {:induction false} SplitConcatSep(a: string, b: string, sep: char)
    ensures Split(a + [sep] + b, sep) == Split(a, sep) + Split(b, sep)
    decreases |a|
  {
    var rb := Split(b, sep);
    if a == [] {
      assert a + [sep] + b == [sep] + b;
      SplitCons(sep, b, sep);
    } else {
      var c, tail := a[0], a[1..];
      ConsParts(a, [sep] + b);
      var w := tail + [sep] + b;
      assert a + [sep] + b == [c] + w;
      SplitConcatSep(tail, b, sep);
      var ra := Split(tail, sep);
      assert Split(w, sep) == ra + rb;
      SplitCons(c, w, sep);
      SplitCons(c, tail, sep);
      if c == sep {
        assert Split([c] + w, sep) == [""] + (ra + rb);
        assert Split(a, sep) == [""] + ra;
        Regroup([""], ra, rb);
      } else {
        HeadTail(ra, rb);
        assert Split([c] + w, sep) == [[c] + ra[0]] + (ra[1..] + rb);
        assert Split(a, sep) == [[c] + ra[0]] + ra[1..];
        Regroup([[c] + ra[0]], ra[1..], rb);
      }
    }
  }

  lemma Regroup<T>(x: seq<T>, y: seq<T>, z: seq<T>)
    ensures (x + y) + z == x + (y + z)
  {
  }

  /** Split unfolded once on a string given as its first character and the rest. */
  lemma SplitCons(c: char, rest: string, sep: char)
    ensures Split([c] + rest, sep) ==
      if c == sep then [""] + Split(rest, sep)
      else [[c] + Split(rest, sep)[0]] + Split(rest, sep)[1..]
  {
    assert ([c] + rest)[1..] == rest;
  }

  lemma ConsParts(a: string, b: string)
    requires a != []
    ensures a == [a[0]] + a[1..] && a + b == [a[0]] + (a[1..] + b)
  {
  }

  /** The first element and the rest of a concatenation whose left part is non-empty. */
  lemma HeadTail<T>(x: seq<T>, y: seq<T>)
    requires x != []
    ensures (x + y)[0] == x[0] && (x + y)[1..] == x[1..] + y
  {
  }

  /** str.replace(pat, rep): every non-overlapping occurrence, scanning left to right. */
  function ReplaceAll(s: string, pat: string, rep: string): string
    requires pat != ""
    decreases |s|
  {
    if |s| < |pat| then s
    else if s[..|pat|] == pat then rep + ReplaceAll(s[|pat|..], pat, rep)
    else [s[0]] + ReplaceAll(s[1..], pat, rep)
  }

  /** A string with no occurrence of the pattern is left unchanged by replace. */
  lemma {:induction false} ReplaceAllAbsent(s: string, pat: string, rep: string)
    requires pat != ""
    requires !Contains(s, pat)
    ensures ReplaceAll(s, pat, rep) == s
    decreases |s|
  {
    if |s| >= |pat| {
      assert !OccursAt(s, pat, 0);
      assert !Contains(s[1..], pat) by {
        if Contains(s[1..], pat) {
          var i :| 0 <= i <= |s[1..]| && OccursAt(s[1..], pat, i);
          assert s[i + 1..i + 1 + |pat|] == s[1..][i..i + |pat|];
          assert OccursAt(s, pat, i + 1);
        }
      }
      ReplaceAllAbsent(s[1..], pat, rep);
      assert [s[0]] + s[1..] == s;
    }
  }

  /** What a regular expression's `$` leaves before it: the whole text, or the text without one
      final newline (Python's `$` also matches just before a trailing "\n"). */
  function BeforeDollar(s: string): string
  {
    if EndsWith(s, "\n") then s[..|s| - 1] else s
  }

  /** Quote a text the way Python's repr shows a plain string. */
  function Quote(s: string): string { "'" + s + "'" }

  /** Python's repr of a list of plain strings: ['a', 'b']. */
  function ReprList(xs: seq<string>): string
  {
    "[" + Join(QuoteAll(xs), ", ") + "]"
  }

  function QuoteAll(xs: seq<string>): (r: seq<string>)
    ensures |r| == |xs|
  {
    if xs == [] then [] else [Quote(xs[0])] + QuoteAll(xs[1..])
  }
}
